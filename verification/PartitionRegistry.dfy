/** The registry actor of a `Partitioner`: which worker generation serves each key. */
module PartitionRegistry {
  import opened Options

  type Key = string

  /** Waiting requests are named by the route that sent them: a route has at most one. */
  datatype Entry =
    | Active(gen: nat)
    | Retiring(gen: nat, waiters: seq<nat>)

  datatype Command =
    | Acquire(key: Key, route: nat)
    | BeginRetirement(key: Key, gen: nat)
    | Retired(key: Key, gen: nat)

  datatype Registry = Registry(entries: map<Key, Entry>, nextGeneration: nat)

  /** What processing one command does: the new registry, the worker it spawns, the requests that
      are answered with a sender of generation `gen`, and the answer to a retirement request. */
  datatype Reaction = Reaction(
    registry: Registry, spawned: bool, gen: nat, grants: seq<nat>, answer: Option<bool>)

  function OpenWaiters(waiters: seq<nat>, open: set<nat>): (kept: seq<nat>)
    ensures forall r :: r in kept <==> r in waiters && r in open
  {
    if waiters == [] then []
    else
      var rest := OpenWaiters(waiters[..|waiters| - 1], open);
      var last := waiters[|waiters| - 1];
      assert waiters == waiters[..|waiters| - 1] + [last];
      if last in open then rest + [last] else rest
  }

  function Quiet(reg: Registry): Reaction {
    Reaction(reg, false, 0, [], None)
  }

  function ReactAcquire(reg: Registry, key: Key, route: nat): Reaction {
    if key !in reg.entries then
      var gen := reg.nextGeneration;
      Reaction(Registry(reg.entries[key := Active(gen)], gen + 1), true, gen, [route], None)
    else match reg.entries[key]
      case Active(gen) => Reaction(reg, false, gen, [route], None)
      case Retiring(gen, waiters) =>
        Quiet(reg.(entries := reg.entries[key := Retiring(gen, waiters + [route])]))
  }

  function ReactBegin(reg: Registry, key: Key, gen: nat): Reaction {
    if key in reg.entries && reg.entries[key] == Active(gen) then
      Quiet(reg.(entries := reg.entries[key := Retiring(gen, [])])).(gen := gen, answer := Some(true))
    else
      Quiet(reg).(gen := gen, answer := Some(false))
  }

  function ReactRetired(reg: Registry, key: Key, gen: nat, open: set<nat>): Reaction {
    if key in reg.entries && reg.entries[key].Retiring? && reg.entries[key].gen == gen then
      var waiters := OpenWaiters(reg.entries[key].waiters, open);
      if waiters == [] then Quiet(reg.(entries := reg.entries - {key}))
      else
        var next := reg.nextGeneration;
        Reaction(Registry(reg.entries[key := Active(next)], next + 1), true, next, waiters, None)
    else Quiet(reg)
  }

  /** `open` holds the requests whose reply channel still has a receiver. */
  function React(reg: Registry, command: Command, open: set<nat>): Reaction {
    match command
    case Acquire(key, route) => ReactAcquire(reg, key, route)
    case BeginRetirement(key, gen) => ReactBegin(reg, key, gen)
    case Retired(key, gen) => ReactRetired(reg, key, gen, open)
  }

  /** The state of `partition_registry`, updated in place command by command. */
  class RegistryActor {
    var entries: map<Key, Entry>
    var nextGeneration: nat

    ghost function Value(): Registry
      reads this
    {
      Registry(entries, nextGeneration)
    }

    constructor ()
      ensures Value() == Registry(map[], 1)
    {
      entries := map[];
      nextGeneration := 1;
    }

    method Handle(command: Command, open: set<nat>)
      returns (spawned: bool, gen: nat, grants: seq<nat>, answer: Option<bool>)
      modifies this
      ensures React(old(Value()), command, open) == Reaction(Value(), spawned, gen, grants, answer)
    {
      spawned, gen, grants, answer := false, 0, [], None;
      match command {
        case Acquire(key, route) =>
          if key in entries {
            match entries[key] {
              case Active(current) =>
                gen, grants := current, [route];
              case Retiring(current, waiters) =>
                entries := entries[key := Retiring(current, waiters + [route])];
            }
          } else {
            gen, spawned := nextGeneration, true;
            nextGeneration := nextGeneration + 1;
            grants := [route];
            entries := entries[key := Active(gen)];
          }
        case BeginRetirement(key, generation) =>
          gen := generation;
          answer := Some(false);
          if key in entries {
            var current := entries[key];
            entries := entries - {key};
            if current == Active(generation) {
              entries := entries[key := Retiring(generation, [])];
              answer := Some(true);
            } else {
              entries := entries[key := current];
              assert entries == old(entries);
            }
          }
          assert Value().entries == React(old(Value()), command, open).registry.entries;
        case Retired(key, generation) =>
          if key in entries {
            var current := entries[key];
            entries := entries - {key};
            if current.Retiring? && current.gen == generation {
              var waiters := Retain(current.waiters, open);
              if waiters != [] {
                gen, spawned := nextGeneration, true;
                nextGeneration := nextGeneration + 1;
                var sent := 0;
                while sent < |waiters|
                  invariant sent <= |waiters| && grants == waiters[..sent]
                {
                  grants := grants + [waiters[sent]];
                  sent := sent + 1;
                }
                entries := entries[key := Active(gen)];
              }
            } else {
              entries := entries[key := current];
              assert entries == old(entries);
            }
          }
          assert Value().entries == React(old(Value()), command, open).registry.entries;
      }
    }

    /** `waiters.retain(|waiter| !waiter.is_closed())`. */
    static method Retain(waiters: seq<nat>, open: set<nat>) returns (kept: seq<nat>)
      ensures kept == OpenWaiters(waiters, open)
    {
      kept := [];
      for i := 0 to |waiters|
        invariant kept == OpenWaiters(waiters[..i], open)
      {
        assert waiters[..i + 1][..i] == waiters[..i];
        if waiters[i] in open {
          kept := kept + [waiters[i]];
        }
      }
      assert waiters[..|waiters|] == waiters;
    }
  }
}
