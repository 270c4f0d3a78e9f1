/** The delivery actor of the local buses: reserve a place with every target, then send. */
module LocalDelivery {
  import opened Options
  import opened Subjects
  import opened RoutingTable

  const SUBSCRIPTION_BUFFER: nat := 128

  /** A subscriber's channel: what is queued, whether the receiver is still there, and what the
      receiver has taken out so far. */
  datatype Channel<M> = Channel(items: seq<M>, open: bool, taken: seq<M>)

  /** The actor's routing table and the identifiers it holds senders for, with the channels. */
  datatype Bus<M> = Bus(table: Table, senders: set<nat>, channels: map<nat, Channel<M>>)

  /** The outcome of trying to reserve one place with each target, in order: `Full` at the first
      target without room. */
  datatype Scan =
    | Ready(dead: seq<nat>, permits: seq<nat>)
    | Full(dead: seq<nat>)

  function Reserve<M>(b: Bus<M>, dead: seq<nat>, permits: seq<nat>, id: nat): Scan {
    if id !in b.senders || id !in b.channels then Ready(dead, permits)
    else if !b.channels[id].open then Ready(dead + [id], permits)
    else if |b.channels[id].items| + multiset(permits)[id] >= SUBSCRIPTION_BUFFER then Full(dead)
    else Ready(dead, permits + [id])
  }

  function Scanned<M>(b: Bus<M>, targets: seq<nat>): Scan {
    if targets == [] then Ready([], [])
    else match Scanned(b, targets[..|targets| - 1])
      case Full(dead) => Full(dead)
      case Ready(dead, permits) => Reserve(b, dead, permits, targets[|targets| - 1])
  }

  function WithoutAll(t: Table, dead: seq<nat>): Table {
    if dead == [] then t else RemoveConsumer(WithoutAll(t, dead[..|dead| - 1]), dead[|dead| - 1])
  }

  function Put<M>(c: Channel<M>, msg: M): Channel<M> {
    c.(items := c.items + [msg])
  }

  function Sent<M>(channels: map<nat, Channel<M>>, permits: seq<nat>, msg: M): map<nat, Channel<M>> {
    if permits == [] then channels
    else
      var before, id := Sent(channels, permits[..|permits| - 1], msg), permits[|permits| - 1];
      if id in before then before[id := Put(before[id], msg)] else before
  }

  function Forgotten<M>(b: Bus<M>, t: Table, dead: seq<nat>): Bus<M> {
    b.(table := WithoutAll(t, dead), senders := b.senders - (set id | id in dead))
  }

  /** The table after `route` has moved the indices of the groups it picked from. */
  function Routed<M>(b: Bus<M>, subject: string): Table {
    b.table.(bindings := AllTurned(b.table.bindings, subject))
  }

  /** `dispatch`: the bus afterwards, and whether the message was accepted. */
  function Dispatched<M>(b: Bus<M>, subject: string, msg: M): (Bus<M>, bool) {
    match Scanned(b, AllTargets(b.table.bindings, subject))
    case Full(dead) => (Forgotten(b, Routed(b, subject), dead), false)
    case Ready(dead, permits) =>
      (Forgotten(b, Routed(b, subject), dead).(channels := Sent(b.channels, permits, msg)), true)
  }

  function Opened<M>(b: Bus<M>, t: Table, id: nat): Bus<M> {
    Bus(t, b.senders + {id}, b.channels[id := Channel([], true, [])])
  }

  function Subscribed<M>(b: Bus<M>, pattern: string): Bus<M> {
    Opened(b, AddFanout(b.table, pattern), b.table.nextId)
  }

  function SubscribedGroup<M>(b: Bus<M>, pattern: string, group: string): (Bus<M>, Result<nat, BindError>) {
    match BindQueue(b.table, pattern, group)
    case Err(e) => (b, Err(e))
    case Ok(t) =>
      match AddConsumer(t, group)
      case (u, Ok(id)) => (Opened(b, u, id), Ok(id))
      case (u, Err(e)) => (b.(table := u), Err(e))
  }

  lemma {:induction false} FullStays<M>(b: Bus<M>, targets: seq<nat>, n: nat)
    requires n <= |targets| && Scanned(b, targets[..n]).Full?
    ensures Scanned(b, targets) == Scanned(b, targets[..n])
  {
    if n == |targets| {
      assert targets[..n] == targets;
    } else {
      assert targets[..|targets| - 1][..n] == targets[..n];
      FullStays(b, targets[..|targets| - 1], n);
    }
  }

  lemma {:induction false} ScanIgnoresTable<M>(a: Bus<M>, b: Bus<M>, targets: seq<nat>)
    requires a.senders == b.senders && a.channels == b.channels
    ensures Scanned(a, targets) == Scanned(b, targets)
  {
    if targets != [] {
      ScanIgnoresTable(a, b, targets[..|targets| - 1]);
    }
  }

  /** The state of `router_actor`. */
  class RouterActor<M> {
    const router: SubjectRouter
    var senders: set<nat>
    var channels: map<nat, Channel<M>>

    ghost function Value(): Bus<M>
      reads this, router
    {
      Bus(router.Value(), senders, channels)
    }

    constructor ()
      ensures fresh(router) && Value() == Bus(Table([], 1), {}, map[])
    {
      router := new SubjectRouter();
      senders := {};
      channels := map[];
    }

    method Subscribe(pattern: string) returns (id: nat)
      modifies this, router
      ensures Value() == Subscribed(old(Value()), pattern) && id == old(router.nextId)
    {
      id := router.Fanout(pattern);
      senders := senders + {id};
      channels := channels[id := Channel([], true, [])];
    }

    method SubscribeGroup(pattern: string, group: string) returns (r: Result<nat, BindError>)
      modifies this, router
      ensures (Value(), r) == SubscribedGroup(old(Value()), pattern, group)
    {
      var bound := router.Bind(pattern, group);
      match bound {
        case Err(e) => return Err(e);
        case Ok(_) =>
          r := router.Consumer(group);
          match r {
            case Ok(id) =>
              senders := senders + {id};
              channels := channels[id := Channel([], true, [])];
            case Err(_) =>
          }
      }
    }

    method RemoveConsumers(dead: seq<nat>)
      modifies this`senders, router
      ensures Value() == Forgotten(old(Value()), old(router.Value()), dead)
    {
      for i := 0 to |dead|
        invariant router.Value() == WithoutAll(old(router.Value()), dead[..i])
        invariant senders == old(senders) - (set id | id in dead[..i])
        invariant channels == old(channels)
      {
        assert dead[..i + 1][..i] == dead[..i];
        router.Remove(dead[i]);
        senders := senders - {dead[i]};
      }
      assert dead[..|dead|] == dead;
    }

    /** The reservation loop, up to the first target without room. */
    method ReserveAll(targets: seq<nat>) returns (found: Scan)
      ensures found == Scanned(Value(), targets)
    {
      var dead, permits: seq<nat> := [], [];
      for i := 0 to |targets|
        invariant Scanned(Value(), targets[..i]) == Ready(dead, permits)
      {
        assert targets[..i + 1][..i] == targets[..i];
        var id := targets[i];
        if id in senders && id in channels {
          if !channels[id].open {
            dead := dead + [id];
          } else if |channels[id].items| + multiset(permits)[id] >= SUBSCRIPTION_BUFFER {
            FullStays(Value(), targets, i + 1);
            return Full(dead);
          } else {
            permits := permits + [id];
          }
        }
      }
      assert targets[..|targets|] == targets;
      return Ready(dead, permits);
    }

    method SendAll(permits: seq<nat>, msg: M)
      modifies this`channels
      ensures channels == Sent(old(channels), permits, msg)
    {
      for i := 0 to |permits|
        invariant channels == Sent(old(channels), permits[..i], msg)
      {
        assert permits[..i + 1][..i] == permits[..i];
        if permits[i] in channels {
          channels := channels[permits[i] := Put(channels[permits[i]], msg)];
        }
      }
      assert permits[..|permits|] == permits;
    }

    method Dispatch(subject: string, msg: M) returns (accepted: bool)
      modifies this, router
      ensures (Value(), accepted) == Dispatched(old(Value()), subject, msg)
    {
      ghost var before := Value();
      var targets := router.Route(subject);
      ScanIgnoresTable(before, Value(), targets);
      var found := ReserveAll(targets);
      RemoveConsumers(found.dead);
      if found.Full? {
        return false;
      }
      SendAll(found.permits, msg);
      return true;
    }
  }
}
