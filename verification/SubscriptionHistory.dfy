/** Who is subscribed to what, told from the operations themselves. */
module SubscriptionHistory {
  import opened Options
  import opened Subjects
  import opened RoutingTable
  import opened Subscriptions

  function Empty(): Flat {
    Flat([], map[], 1)
  }

  predicate TakesId(op: Op) {
    op.OpFanout? || op.OpConsume?
  }

  /** The identifier that the next subscription gets: identifiers count up from 1. */
  function NextId(ops: seq<Op>): nat {
    if ops == [] then 1 else NextId(ops[..|ops| - 1]) + if TakesId(ops[|ops| - 1]) then 1 else 0
  }

  /** The pattern with which a queue was first declared. */
  function Declared(ops: seq<Op>, q: string): Option<string> {
    if ops == [] then None
    else
      var before, last := Declared(ops[..|ops| - 1], q), ops[|ops| - 1];
      if before.None? && last.OpBind? && last.queue == q then Some(last.pattern) else before
  }

  /** Operation `k` subscribes `sub`: to its own pattern, or to that of its queue. */
  predicate Subscribes(ops: seq<Op>, k: nat, sub: Sub)
    requires k < |ops|
  {
    && TakesId(ops[k]) && sub.id == NextId(ops[..k])
    && match ops[k]
       case OpFanout(p) => sub.pattern == p && sub.group == None
       case OpConsume(q) => sub.group == Some(q) && Declared(ops[..k], q) == Some(sub.pattern)
       case _ => false
  }

  /** It was subscribed by some operation, and by none after that removed. */
  ghost predicate Subscribed(ops: seq<Op>, sub: Sub) {
    exists k :: 0 <= k < |ops| && Subscribes(ops, k, sub) && OpRemove(sub.id) !in ops[k..]
  }

  // ---------- one more operation ----------

  lemma SubscribesEarlier(ops: seq<Op>, op: Op, k: nat, sub: Sub)
    requires k < |ops|
    ensures Subscribes(ops + [op], k, sub) <==> Subscribes(ops, k, sub)
  {
    assert (ops + [op])[..k] == ops[..k];
  }

  /** Subscribed after one more operation: subscribed by it, or before and not removed by it. */
  lemma SubscribedNext(ops: seq<Op>, op: Op, sub: Sub)
    ensures Subscribed(ops + [op], sub) <==>
              || Subscribes(ops + [op], |ops|, sub)
              || (Subscribed(ops, sub) && op != OpRemove(sub.id))
  {
    var all := ops + [op];
    if Subscribed(all, sub) {
      var k :| 0 <= k < |all| && Subscribes(all, k, sub) && OpRemove(sub.id) !in all[k..];
      if k < |ops| {
        SubscribesEarlier(ops, op, k, sub);
        assert all[k..] == ops[k..] + [op];
      }
    }
    if Subscribes(all, |ops|, sub) {
      assert all[|ops|..] == [op];
    }
    if Subscribed(ops, sub) && op != OpRemove(sub.id) {
      var k :| 0 <= k < |ops| && Subscribes(ops, k, sub) && OpRemove(sub.id) !in ops[k..];
      SubscribesEarlier(ops, op, k, sub);
      assert all[k..] == ops[k..] + [op];
    }
  }

  // ---------- any operations ----------

  /** Identifiers and queue patterns after any operations. */
  lemma {:induction false} CountersAndQueues(ops: seq<Op>, q: string)
    ensures FlatRun(Empty(), ops).nextId == NextId(ops)
    ensures q in FlatRun(Empty(), ops).queues <==> Declared(ops, q).Some?
    ensures Declared(ops, q).Some? ==> FlatRun(Empty(), ops).queues[q] == Declared(ops, q).value
  {
    if ops != [] {
      CountersAndQueues(ops[..|ops| - 1], q);
    }
  }

  /** After any operations the list holds exactly the subscriptions that some operation made and no
      later one removed. */
  lemma {:induction false} ListIsSubscribed(ops: seq<Op>, sub: Sub)
    ensures sub in FlatRun(Empty(), ops).subs <==> Subscribed(ops, sub)
  {
    if ops != [] {
      var front, op := ops[..|ops| - 1], ops[|ops| - 1];
      assert front + [op] == ops;
      ListIsSubscribed(front, sub);
      SubscribedNext(front, op, sub);
      ListNext(front, op, sub);
    }
  }

  lemma {:induction false} ListNext(ops: seq<Op>, op: Op, sub: Sub)
    ensures sub in FlatStep(FlatRun(Empty(), ops), op).subs <==>
              || Subscribes(ops + [op], |ops|, sub)
              || (sub in FlatRun(Empty(), ops).subs && op != OpRemove(sub.id))
  {
    assert (ops + [op])[..|ops|] == ops;
    CountersAndQueues(ops, if op.OpConsume? then op.queue else "");
    if op.OpRemove? {
      OthersMembers(FlatRun(Empty(), ops).subs, op.id);
    }
  }

  /** After any operations `route` selects a fanout subscriber exactly if it was subscribed to a pattern
      that matches and has not been removed since, and a member of a queue only if it is its turn. */
  lemma {:induction false} RouteSelectsSubscribed(ops: seq<Op>, subject: string, sub: Sub)
    requires Subscribed(ops, sub)
    ensures var t, f := TableRun(Table([], 1), ops), FlatRun(Empty(), ops);
            && (sub.id in AllTargets(t.bindings, subject) <==> Selected(t, f, subject, sub))
            && (sub.group.None? ==>
                  (sub.id in AllTargets(t.bindings, subject) <==> Matches(Split(sub.pattern), Split(subject))))
  {
    TableRefinesFlatList(ops);
    ListIsSubscribed(ops, sub);
    RouteIsExact(TableRun(Table([], 1), ops), FlatRun(Empty(), ops), subject);
  }

  /** And it selects nobody else. */
  lemma {:induction false} RouteSelectsNobodyElse(ops: seq<Op>, subject: string, id: nat)
    requires id in AllTargets(TableRun(Table([], 1), ops).bindings, subject)
    ensures exists sub :: Subscribed(ops, sub) && sub.id == id
  {
    TableRefinesFlatList(ops);
    RouteIsExact(TableRun(Table([], 1), ops), FlatRun(Empty(), ops), subject);
    var sub :| sub in FlatRun(Empty(), ops).subs && sub.id == id;
    ListIsSubscribed(ops, sub);
  }
}
