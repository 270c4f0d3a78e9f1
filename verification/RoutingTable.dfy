/** The routing table of the local buses. */
module RoutingTable {
  import opened Options
  import opened Subjects

  datatype Binding = Binding(pattern: string, queue: Option<string>, consumers: seq<nat>, rr: nat)

  datatype Table = Table(bindings: seq<Binding>, nextId: nat)

  datatype BindError = QueueTaken(pattern: string) | QueueNotFound

  /** A fanout binding is found by its pattern, a queue binding by its queue. */
  predicate HasKey(b: Binding, pattern: string, queue: Option<string>) {
    b.queue == queue && (queue.None? ==> b.pattern == pattern)
  }

  /** The position of the first binding with this key, or the number of bindings. */
  function Find(bs: seq<Binding>, pattern: string, queue: Option<string>): (k: nat)
    ensures k <= |bs| && (k < |bs| ==> HasKey(bs[k], pattern, queue))
    ensures forall i :: 0 <= i < k ==> !HasKey(bs[i], pattern, queue)
  {
    if bs == [] || HasKey(bs[0], pattern, queue) then 0 else 1 + Find(bs[1..], pattern, queue)
  }

  function WithConsumer(b: Binding, id: nat): Binding {
    b.(consumers := b.consumers + [id])
  }

  function AddFanout(t: Table, pattern: string): Table {
    var k := Find(t.bindings, pattern, None);
    var bs := if k < |t.bindings| then t.bindings[k := WithConsumer(t.bindings[k], t.nextId)]
              else t.bindings + [Binding(pattern, None, [t.nextId], 0)];
    Table(bs, t.nextId + 1)
  }

  function BindQueue(t: Table, pattern: string, queue: string): Result<Table, BindError> {
    var k := Find(t.bindings, pattern, Some(queue));
    if k == |t.bindings| then Ok(t.(bindings := t.bindings + [Binding(pattern, Some(queue), [], 0)]))
    else if t.bindings[k].pattern != pattern then Err(QueueTaken(t.bindings[k].pattern))
    else Ok(t)
  }

  /** The identifier is used up even when the queue is unknown. */
  function AddConsumer(t: Table, queue: string): (Table, Result<nat, BindError>) {
    var k := Find(t.bindings, "", Some(queue));
    if k == |t.bindings| then (t.(nextId := t.nextId + 1), Err(QueueNotFound))
    else (Table(t.bindings[k := WithConsumer(t.bindings[k], t.nextId)], t.nextId + 1), Ok(t.nextId))
  }

  predicate Hit(b: Binding, subject: string) {
    Matches(Split(b.pattern), Split(subject))
  }

  /** Whom a binding selects. */
  function Targets(b: Binding, subject: string): seq<nat> {
    if !Hit(b, subject) then []
    else if b.queue.None? then b.consumers
    else if b.consumers == [] then [] else [b.consumers[b.rr % |b.consumers|]]
  }

  /** A matching group with members moves its round-robin index. */
  function Turned(b: Binding, subject: string): Binding {
    if Hit(b, subject) && b.queue.Some? && b.consumers != [] then b.(rr := b.rr + 1) else b
  }

  function AllTargets(bs: seq<Binding>, subject: string): seq<nat> {
    if bs == [] then [] else AllTargets(bs[..|bs| - 1], subject) + Targets(bs[|bs| - 1], subject)
  }

  function AllTurned(bs: seq<Binding>, subject: string): (turned: seq<Binding>)
    ensures |turned| == |bs|
    ensures forall i :: 0 <= i < |bs| ==> turned[i] == Turned(bs[i], subject)
  {
    seq(|bs|, i requires 0 <= i < |bs| => Turned(bs[i], subject))
  }

  function Without(ids: seq<nat>, id: nat): (kept: seq<nat>)
    ensures forall x :: x in kept <==> x in ids && x != id
  {
    if ids == [] then []
    else
      var last := ids[|ids| - 1];
      assert ids == ids[..|ids| - 1] + [last];
      Without(ids[..|ids| - 1], id) + if last != id then [last] else []
  }

  function AllWithout(bs: seq<Binding>, id: nat): (after: seq<Binding>)
    ensures |after| == |bs|
    ensures forall i :: 0 <= i < |bs| ==> after[i] == bs[i].(consumers := Without(bs[i].consumers, id))
  {
    seq(|bs|, i requires 0 <= i < |bs| => bs[i].(consumers := Without(bs[i].consumers, id)))
  }

  predicate Kept(b: Binding) {
    b.queue.Some? || b.consumers != []
  }

  function Retained(bs: seq<Binding>): seq<Binding> {
    if bs == [] then []
    else Retained(bs[..|bs| - 1]) + if Kept(bs[|bs| - 1]) then [bs[|bs| - 1]] else []
  }

  function RemoveConsumer(t: Table, id: nat): Table {
    t.(bindings := Retained(AllWithout(t.bindings, id)))
  }

  /** `SubjectRouter`. */
  class SubjectRouter {
    var bindings: seq<Binding>
    var nextId: nat

    ghost function Value(): Table
      reads this
    {
      Table(bindings, nextId)
    }

    constructor ()
      ensures Value() == Table([], 1)
    {
      bindings := [];
      nextId := 1;
    }

    method AllocId() returns (id: nat)
      modifies this`nextId
      ensures id == old(nextId) && nextId == id + 1
    {
      id := nextId;
      nextId := nextId + 1;
    }

    method FindBinding(pattern: string, queue: Option<string>) returns (k: nat)
      ensures k == Find(bindings, pattern, queue)
    {
      k := 0;
      while k < |bindings|
        invariant k <= |bindings|
        invariant Find(bindings, pattern, queue) == k + Find(bindings[k..], pattern, queue)
      {
        if HasKey(bindings[k], pattern, queue) {
          return;
        }
        assert bindings[k..][1..] == bindings[k + 1..];
        k := k + 1;
      }
    }

    method Fanout(pattern: string) returns (id: nat)
      modifies this
      ensures Value() == AddFanout(old(Value()), pattern) && id == old(nextId)
    {
      id := AllocId();
      var k := FindBinding(pattern, None);
      if k < |bindings| {
        bindings := bindings[k := WithConsumer(bindings[k], id)];
        return;
      }
      bindings := bindings + [Binding(pattern, None, [id], 0)];
    }

    method Bind(pattern: string, queue: string) returns (r: Result<(), BindError>)
      modifies this
      ensures match BindQueue(old(Value()), pattern, queue)
              case Ok(t) => r == Ok(()) && Value() == t
              case Err(e) => r == Err(e) && Value() == old(Value())
    {
      var k := FindBinding(pattern, Some(queue));
      if k < |bindings| {
        if bindings[k].pattern != pattern {
          return Err(QueueTaken(bindings[k].pattern));
        }
        return Ok(());
      }
      bindings := bindings + [Binding(pattern, Some(queue), [], 0)];
      return Ok(());
    }

    method Consumer(queue: string) returns (r: Result<nat, BindError>)
      modifies this
      ensures (Value(), r) == AddConsumer(old(Value()), queue)
    {
      var id := AllocId();
      var k := FindBinding("", Some(queue));
      if k == |bindings| {
        return Err(QueueNotFound);
      }
      bindings := bindings[k := WithConsumer(bindings[k], id)];
      return Ok(id);
    }

    method Route(subject: string) returns (targets: seq<nat>)
      modifies this`bindings
      ensures bindings == AllTurned(old(bindings), subject)
      ensures targets == AllTargets(old(bindings), subject)
    {
      targets := [];
      ghost var before := bindings;
      var i := 0;
      while i < |bindings|
        invariant i <= |bindings| == |before|
        invariant forall j :: 0 <= j < i ==> bindings[j] == Turned(before[j], subject)
        invariant forall j :: i <= j < |before| ==> bindings[j] == before[j]
        invariant targets == AllTargets(before[..i], subject)
      {
        assert before[..i + 1][..i] == before[..i];
        var turned, selected := Visit(bindings[i], subject);
        bindings := bindings[i := turned];
        targets := targets + selected;
        i := i + 1;
      }
      assert before[..i] == before;
    }

    /** What `route` does with one binding. */
    static method Visit(b: Binding, subject: string) returns (turned: Binding, selected: seq<nat>)
      ensures turned == Turned(b, subject) && selected == Targets(b, subject)
    {
      var hit := WildcardMatch(b.pattern, subject);
      if !hit {
        return b, [];
      }
      if b.queue.None? {
        return b, b.consumers;
      }
      if b.consumers == [] {
        return b, [];
      }
      var idx := b.rr % |b.consumers|;
      return b.(rr := b.rr + 1), [b.consumers[idx]];
    }

    method Remove(id: nat)
      modifies this`bindings
      ensures Value() == RemoveConsumer(old(Value()), id)
    {
      ghost var before := bindings;
      var i := 0;
      while i < |bindings|
        invariant i <= |bindings| == |before|
        invariant forall j :: 0 <= j < i ==> bindings[j] == before[j].(consumers := Without(before[j].consumers, id))
        invariant forall j :: i <= j < |before| ==> bindings[j] == before[j]
      {
        var kept := RetainOthers(bindings[i].consumers, id);
        bindings := bindings[i := bindings[i].(consumers := kept)];
        i := i + 1;
      }
      assert bindings == AllWithout(before, id);
      var all, left := bindings, [];
      for j := 0 to |all|
        invariant left == Retained(all[..j])
      {
        assert all[..j + 1][..j] == all[..j];
        if Kept(all[j]) {
          left := left + [all[j]];
        }
      }
      assert all[..|all|] == all;
      bindings := left;
    }

    static method RetainOthers(ids: seq<nat>, id: nat) returns (kept: seq<nat>)
      ensures kept == Without(ids, id)
    {
      kept := [];
      for i := 0 to |ids|
        invariant kept == Without(ids[..i], id)
      {
        assert ids[..i + 1][..i] == ids[..i];
        if ids[i] != id {
          kept := kept + [ids[i]];
        }
      }
      assert ids[..|ids|] == ids;
    }
  }
}
