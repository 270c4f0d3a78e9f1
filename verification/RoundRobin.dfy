/** Round-robin fairness of queue groups. */
module RoundRobin {
  import opened Options
  import opened Sequences
  import opened Subjects
  import opened RoutingTable
  import opened Subscriptions

  predicate Known(t: Table, q: string) {
    Find(t.bindings, "", Some(q)) < |t.bindings|
  }

  function GroupOf(t: Table, q: string): Binding
    requires Known(t, q)
  {
    t.bindings[Find(t.bindings, "", Some(q))]
  }

  /** Whom one operation picks from the group. */
  function Pick(t: Table, op: Op, q: string): seq<nat> {
    if op.OpRoute? && Known(t, q) then Targets(GroupOf(t, q), op.subject) else []
  }

  /** Whom the operations pick from the group, in order. */
  function Picks(t: Table, ops: seq<Op>, q: string): seq<nat> {
    if ops == [] then []
    else
      var front := ops[..|ops| - 1];
      Picks(t, front, q) + Pick(TableRun(t, front), ops[|ops| - 1], q)
  }

  predicate HasMembers(t: Table, q: string, members: seq<nat>) {
    Known(t, q) && GroupOf(t, q).consumers == members
  }

  /** The group has these members all along: after every prefix of the operations. */
  ghost predicate Stable(t: Table, ops: seq<Op>, q: string, members: seq<nat>) {
    HasMembers(TableRun(t, ops), q, members) && (ops != [] ==> Stable(t, ops[..|ops| - 1], q, members))
  }

  lemma {:induction false} StableFromTheStart(t: Table, ops: seq<Op>, q: string, members: seq<nat>)
    requires Stable(t, ops, q, members)
    ensures HasMembers(t, q, members)
  {
    if ops != [] {
      StableFromTheStart(t, ops[..|ops| - 1], q, members);
    }
  }

  lemma GroupAt(t: Table, f: Flat, q: string, b: Binding)
    requires Refines(t, f) && b in t.bindings && b.queue == Some(q)
    ensures Known(t, q) && GroupOf(t, q) == b
  {
    var i :| 0 <= i < |t.bindings| && t.bindings[i] == b;
    FoundAt(t.bindings, "", Some(q), i);
  }

  /** The group's binding is at the same place after an operation that drops none. */
  lemma IndexMovesInPlace(t: Table, f: Flat, u: Table, g: Flat, q: string, picked: nat)
    requires Refines(u, g) && Known(t, q) && |u.bindings| >= |t.bindings|
    requires var k, b := Find(t.bindings, "", Some(q)), GroupOf(t, q);
             u.bindings[k].queue == b.queue && u.bindings[k].rr == b.rr + picked
    ensures Known(u, q) && GroupOf(u, q).rr == GroupOf(t, q).rr + picked
  {
  }

  lemma IndexSurvivesRemoval(t: Table, f: Flat, id: nat, q: string)
    requires Refines(t, f) && Known(t, q) && Refines(RemoveConsumer(t, id), FlatStep(f, OpRemove(id)))
    ensures Known(RemoveConsumer(t, id), q) && GroupOf(RemoveConsumer(t, id), q).rr == GroupOf(t, q).rr
  {
    var k, all := Find(t.bindings, "", Some(q)), AllWithout(t.bindings, id);
    RetainedKeeps(all);
    assert Kept(all[k]) && all[k] in RemoveConsumer(t, id).bindings;
    GroupAt(RemoveConsumer(t, id), FlatStep(f, OpRemove(id)), q, all[k]);
  }

  lemma StepInPlace(t: Table, op: Op, q: string)
    requires Known(t, q) && !op.OpRemove?
    ensures var k, b, u := Find(t.bindings, "", Some(q)), GroupOf(t, q), TableStep(t, op);
            && |u.bindings| >= |t.bindings|
            && u.bindings[k].queue == b.queue && u.bindings[k].rr == b.rr + |Pick(t, op, q)|
  {
  }

  /** Only being picked from moves a group's index, and by one. */
  lemma IndexMoves(t: Table, f: Flat, op: Op, q: string)
    requires Refines(t, f) && Known(t, q)
    ensures Known(TableStep(t, op), q)
    ensures GroupOf(TableStep(t, op), q).rr == GroupOf(t, q).rr + |Pick(t, op, q)|
  {
    StepRefines(t, f, op);
    if op.OpRemove? {
      IndexSurvivesRemoval(t, f, op.id, q);
    } else {
      StepInPlace(t, op, q);
      IndexMovesInPlace(t, f, TableStep(t, op), FlatStep(f, op), q, |Pick(t, op, q)|);
    }
  }

  /** The picks go round the members, from position `a` on. */
  ghost predicate InTurn(picks: seq<nat>, members: seq<nat>, a: nat)
    requires members != []
  {
    forall j :: 0 <= j < |picks| ==> picks[j] == members[(a + j) % |members|]
  }

  lemma InTurnAppend(picks: seq<nat>, more: seq<nat>, members: seq<nat>, a: nat)
    requires members != [] && InTurn(picks, members, a)
    requires more == [] || more == [members[(a + |picks|) % |members|]]
    ensures InTurn(picks + more, members, a)
  {
  }

  /** Members are picked in turn, from wherever the index stood. */
  lemma {:induction false} PicksInTurn(t: Table, f: Flat, ops: seq<Op>, q: string, members: seq<nat>)
    requires Refines(t, f) && members != [] && Stable(t, ops, q, members)
    ensures Known(t, q) && Known(TableRun(t, ops), q)
    ensures Refines(TableRun(t, ops), FlatRun(f, ops))
    ensures GroupOf(TableRun(t, ops), q).rr == GroupOf(t, q).rr + |Picks(t, ops, q)|
    ensures InTurn(Picks(t, ops, q), members, GroupOf(t, q).rr)
  {
    StableFromTheStart(t, ops, q, members);
    if ops != [] {
      var front, op := ops[..|ops| - 1], ops[|ops| - 1];
      PicksInTurn(t, f, front, q, members);
      PicksInTurnStep(TableRun(t, front), FlatRun(f, front), op, q, members, Picks(t, front, q), GroupOf(t, q).rr);
    }
  }

  lemma OneMoreInTurn(picks: seq<nat>, more: seq<nat>, members: seq<nat>, a: nat, index: nat, after: nat)
    requires members != [] && InTurn(picks, members, a) && index == a + |picks| && after == index + |more|
    requires more == [] || more == [members[index % |members|]]
    ensures InTurn(picks + more, members, a) && after == a + |picks + more|
  {
    InTurnAppend(picks, more, members, a);
  }

  lemma PicksInTurnStep(now: Table, f: Flat, op: Op, q: string, members: seq<nat>, picks: seq<nat>, a: nat)
    requires Refines(now, f) && Known(now, q) && members != [] && GroupOf(now, q).consumers == members
    requires GroupOf(now, q).rr == a + |picks| && InTurn(picks, members, a)
    ensures Known(TableStep(now, op), q) && Refines(TableStep(now, op), FlatStep(f, op))
    ensures GroupOf(TableStep(now, op), q).rr == a + |picks + Pick(now, op, q)|
    ensures InTurn(picks + Pick(now, op, q), members, a)
  {
    OneMorePick(now, f, op, q, members);
    OneMoreInTurn(picks, Pick(now, op, q), members, a, GroupOf(now, q).rr, GroupOf(TableStep(now, op), q).rr);
  }

  lemma OneMorePick(now: Table, f: Flat, op: Op, q: string, members: seq<nat>)
    requires Refines(now, f) && Known(now, q) && members != [] && GroupOf(now, q).consumers == members
    ensures Known(TableStep(now, op), q) && Refines(TableStep(now, op), FlatStep(f, op))
    ensures GroupOf(TableStep(now, op), q).rr == GroupOf(now, q).rr + |Pick(now, op, q)|
    ensures Pick(now, op, q) == [] || Pick(now, op, q) == [members[GroupOf(now, q).rr % |members|]]
  {
    StepRefines(now, f, op);
    IndexMoves(now, f, op, q);
  }

  /** How many of the `k` numbers from `a` on leave residue `m`. */
  function Hits(a: nat, n: nat, m: nat, k: nat): nat
    requires n > 0
  {
    if k == 0 then 0 else Hits(a, n, m, k - 1) + if (a + k - 1) % n == m then 1 else 0
  }

  lemma SmallMultiple(e: int, n: int)
    requires n > 0 && -n < e * n < n
    ensures e == 0
  {
  }

  /** `y` is the quotient and `z` the remainder. */
  lemma QuotientIs(x: nat, n: nat, y: nat, z: nat)
    requires n > 0 && x == y * n + z && z < n
    ensures x / n == y && x % n == z
  {
    var d := x / n;
    assert x == d * n + x % n;
    assert (d - y) * n == d * n - y * n;
    SmallMultiple(d - y, n);
  }

  lemma NextQuotient(x: nat, n: nat)
    requires n > 0
    ensures (x + 1) / n == x / n + if (x + 1) % n == 0 then 1 else 0
  {
    if x % n + 1 == n {
      assert (x / n + 1) * n == x / n * n + n;
      QuotientIs(x + 1, n, x / n + 1, 0);
    } else {
      QuotientIs(x + 1, n, x / n, x % n + 1);
    }
  }

  /** `y % n == m` exactly when the next multiple of `n` from `y - m` is there. */
  lemma ShiftedResidue(y: nat, n: nat, m: nat)
    requires n > 0 && m < n
    ensures (y % n == m) <==> (y + n - m) % n == 0
  {
    var r := y % n;
    assert y == y / n * n + r;
    if r == m {
      assert (y / n + 1) * n == y / n * n + n;
      QuotientIs(y + n - m, n, y / n + 1, 0);
    } else if r > m {
      assert (y / n + 1) * n == y / n * n + n;
      QuotientIs(y + n - m, n, y / n + 1, r - m);
    } else {
      QuotientIs(y + n - m, n, y / n, r + n - m);
    }
  }

  lemma {:induction false} HitsCounted(a: nat, n: nat, m: nat, k: nat)
    requires n > 0 && m < n
    ensures Hits(a, n, m, k) == (a + k + n - 1 - m) / n - (a + n - 1 - m) / n
  {
    if k > 0 {
      HitsCounted(a, n, m, k - 1);
      NextQuotient(a + k - 1 + n - 1 - m, n);
      ShiftedResidue(a + k - 1, n, m);
    }
  }

  lemma CarryOrNot(x: nat, y: nat, r: nat, n: nat)
    requires n > 0 && x == y * n + r && r < 2 * n
    ensures x / n == if r < n then y else y + 1
  {
    if r < n {
      QuotientIs(x, n, y, r);
    } else {
      assert (y + 1) * n == y * n + n;
      QuotientIs(x, n, y + 1, r - n);
    }
  }

  lemma QuotientOfSum(u: nat, k: nat, n: nat)
    requires n > 0
    ensures k / n <= (u + k) / n - u / n <= k / n + 1
    ensures k % n == 0 ==> (u + k) / n - u / n == k / n
  {
    var qu, qk, ru, rk := u / n, k / n, u % n, k % n;
    assert u == qu * n + ru && k == qk * n + rk;
    assert (qu + qk) * n == qu * n + qk * n;
    CarryOrNot(u + k, qu + qk, ru + rk, n);
  }

  /** Any `k` consecutive turns hit each residue `k / n` times, or once more. */
  lemma {:induction false} HitsEven(a: nat, n: nat, m: nat, k: nat)
    requires n > 0 && m < n
    ensures k / n <= Hits(a, n, m, k) <= k / n + 1
    ensures k % n == 0 ==> Hits(a, n, m, k) == k / n
  {
    HitsCounted(a, n, m, k);
    QuotientOfSum(a + n - 1 - m, k, n);
  }

  function Count(ids: seq<nat>, id: nat): nat {
    if ids == [] then 0 else Count(ids[..|ids| - 1], id) + if ids[|ids| - 1] == id then 1 else 0
  }

  lemma {:induction false} CountIsHits(picks: seq<nat>, members: seq<nat>, a: nat, m: nat)
    requires m < |members| && Distinct(members)
    requires InTurn(picks, members, a)
    ensures Count(picks, members[m]) == Hits(a, |members|, m, |picks|)
  {
    if picks != [] {
      assert InTurn(picks[..|picks| - 1], members, a);
      CountIsHits(picks[..|picks| - 1], members, a, m);
    }
  }

  lemma MembersDistinct(t: Table, f: Flat, q: string)
    requires Refines(t, f) && Known(t, q)
    ensures Distinct(GroupOf(t, q).consumers)
  {
    var b := GroupOf(t, q);
    assert BindingOk(f, b);
    IdsOfIncrease(f.subs, b.pattern, b.queue);
  }

  /** `id` occurs `|picks| / n` times, or once more. */
  ghost predicate FairShare(picks: seq<nat>, n: nat, id: nat)
    requires n > 0
  {
    && |picks| / n <= Count(picks, id) <= |picks| / n + 1
    && (|picks| % n == 0 ==> Count(picks, id) == |picks| / n)
  }

  lemma TurnsAreFair(picks: seq<nat>, members: seq<nat>, a: nat, m: nat)
    requires m < |members| && Distinct(members)
    requires InTurn(picks, members, a)
    ensures FairShare(picks, |members|, members[m])
  {
    CountIsHits(picks, members, a, m);
    HitsEven(a, |members|, m, |picks|);
  }

  /** While a group is stable, whatever else is done to the table and wherever its index stood, each
      member has been picked as often as any other, give or take one. */
  lemma {:induction false} RoundRobinIsFair(t: Table, f: Flat, ops: seq<Op>, q: string, members: seq<nat>, m: nat)
    requires Refines(t, f) && m < |members|
    ensures Stable(t, ops, q, members) ==> FairShare(Picks(t, ops, q), |members|, members[m])
  {
    if Stable(t, ops, q, members) {
      PicksInTurn(t, f, ops, q, members);
      StableFromTheStart(t, ops, q, members);
      MembersDistinct(t, f, q);
      TurnsAreFair(Picks(t, ops, q), members, GroupOf(t, q).rr, m);
    }
  }

  /** From an empty table on, a group's index is the number of picks from it so far. */
  lemma {:induction false} IndexCountsPicks(ops: seq<Op>, q: string)
    ensures var t := TableRun(Table([], 1), ops);
            if Known(t, q) then GroupOf(t, q).rr == |Picks(Table([], 1), ops, q)| else Picks(Table([], 1), ops, q) == []
  {
    if ops != [] {
      var front, op := ops[..|ops| - 1], ops[|ops| - 1];
      var t, f := TableRun(Table([], 1), front), FlatRun(Flat([], map[], 1), front);
      IndexCountsPicks(front, q);
      TableRefinesFlatList(front);
      if Known(t, q) {
        IndexMoves(t, f, op, q);
      } else {
        NewGroupStartsAtZero(t, f, op, q);
      }
    }
  }

  lemma NewGroupStartsAtZero(t: Table, f: Flat, op: Op, q: string)
    requires Refines(t, f) && !Known(t, q)
    ensures Pick(t, op, q) == []
    ensures Known(TableStep(t, op), q) ==> GroupOf(TableStep(t, op), q).rr == 0
  {
    if op.OpRemove? {
      RemovalAddsNoGroup(t, op.id, q);
    }
  }

  lemma RemovalAddsNoGroup(t: Table, id: nat, q: string)
    requires !Known(t, q)
    ensures !Known(RemoveConsumer(t, id), q)
  {
    var bs := RemoveConsumer(t, id).bindings;
    RetainedKeeps(AllWithout(t.bindings, id));
    forall i | 0 <= i < |bs| ensures !HasKey(bs[i], "", Some(q)) {
      var j :| 0 <= j < |t.bindings| && AllWithout(t.bindings, id)[j] == bs[i];
      assert !HasKey(t.bindings[j], "", Some(q));
    }
  }

  function MatchingRoutes(ops: seq<Op>, pattern: string): nat {
    if ops == [] then 0
    else MatchingRoutes(ops[..|ops| - 1], pattern) +
         if ops[|ops| - 1].OpRoute? && Matches(Split(pattern), Split(ops[|ops| - 1].subject)) then 1 else 0
  }

  /** Every matching message picks one member and no other message picks any. */
  lemma {:induction false} PickPerMatch(t: Table, f: Flat, ops: seq<Op>, q: string, members: seq<nat>)
    requires Refines(t, f) && q in f.queues && members != [] && Stable(t, ops, q, members)
    ensures |Picks(t, ops, q)| == MatchingRoutes(ops, f.queues[q])
  {
    if ops != [] {
      var front := ops[..|ops| - 1];
      PickPerMatch(t, f, front, q, members);
      PicksInTurn(t, f, front, q, members);
      QueuePatternNeverChanges(f, front, q);
      QueueKnown(TableRun(t, front), FlatRun(f, front), "", q);
    }
  }
}
