/** What one dispatch does to every queue: all of the targets or none of them. */
module DispatchOutcome {
  import opened Options
  import opened Sequences
  import opened Subjects
  import opened RoutingTable
  import opened Subscriptions
  import opened LocalDelivery
  import Runs = DeliveryRuns
  import Groups = RoundRobin

  predicate Known<M>(b: Bus<M>, id: nat) {
    id in b.senders && id in b.channels
  }

  predicate Live<M>(b: Bus<M>, id: nat) {
    Known(b, id) && b.channels[id].open
  }

  predicate Gone<M>(b: Bus<M>, id: nat) {
    Known(b, id) && !b.channels[id].open
  }

  predicate Blocked<M>(b: Bus<M>, id: nat) {
    Live(b, id) && |b.channels[id].items| >= 128
  }

  ghost predicate Gets<M>(b: Bus<M>, targets: seq<nat>, id: nat) {
    id in targets && Live(b, id)
  }

  lemma DistinctFront(ids: seq<nat>)
    requires Distinct(ids) && ids != []
    ensures Distinct(ids[..|ids| - 1]) && ids[|ids| - 1] !in ids[..|ids| - 1]
    ensures forall id :: id in ids <==> id in ids[..|ids| - 1] || id == ids[|ids| - 1]
  {
  }

  /** The reservation loop refuses exactly when a live target is full; otherwise it has one place
      with every live target and has seen every target that went away. */
  lemma {:induction false} ScanIsExact<M>(b: Bus<M>, targets: seq<nat>)
    requires Distinct(targets)
    ensures Scanned(b, targets).Full? <==> exists id :: id in targets && Blocked(b, id)
    ensures forall id :: id in Scanned(b, targets).dead ==> id in targets && Gone(b, id)
    ensures var found := Scanned(b, targets); found.Ready? ==>
              && Distinct(found.permits)
              && (forall id :: id in found.permits <==> Gets(b, targets, id))
              && (forall id :: id in found.dead <==> id in targets && Gone(b, id))
  {
    if targets != [] {
      var front, last := targets[..|targets| - 1], targets[|targets| - 1];
      DistinctFront(targets);
      ScanIsExact(b, front);
      if Scanned(b, front).Ready? {
        var permits := Scanned(b, front).permits;
        assert last !in permits && multiset(permits)[last] == 0;
        assert last in targets && (Blocked(b, last) <==> Scanned(b, targets).Full?);
        assert forall id :: id in targets && Blocked(b, id) ==> id == last;
        DistinctConcat(permits, [last]);
      }
    }
  }

  /** Every holder of a place gets one copy, and no other queue changes. */
  lemma {:induction false} SentIsExact<M>(channels: map<nat, Channel<M>>, permits: seq<nat>, msg: M)
    requires Distinct(permits)
    ensures Sent(channels, permits, msg).Keys == channels.Keys
    ensures forall id :: id in channels ==>
              Sent(channels, permits, msg)[id] == if id in permits then Put(channels[id], msg) else channels[id]
  {
    if permits != [] {
      DistinctFront(permits);
      SentIsExact(channels, permits[..|permits| - 1], msg);
    }
  }

  /** All or nothing: a message is refused exactly when some selected live subscriber is full, and
      then no queue changes; otherwise each selected live subscriber gets exactly one copy, every
      other queue stays as it was, and the selected ones that went away are forgotten. */
  lemma {:induction false} AllOrNothing<M>(b: Bus<M>, f: Flat, subject: string, msg: M)
    requires Refines(b.table, f)
    ensures var targets := AllTargets(b.table.bindings, subject);
            var (after, accepted) := Dispatched(b, subject, msg);
            && (accepted <==> forall id :: id in targets ==> !Blocked(b, id))
            && (!accepted ==> after.channels == b.channels)
            && (accepted ==> after.channels.Keys == b.channels.Keys)
            && (accepted ==> forall id :: id in b.channels ==>
                  after.channels[id] == if Gets(b, targets, id) then Put(b.channels[id], msg) else b.channels[id])
            && (accepted ==> forall id :: id in after.senders <==>
                  id in b.senders && !(id in targets && Gone(b, id)))
  {
    var targets := AllTargets(b.table.bindings, subject);
    RouteIsExact(b.table, f, subject);
    ScanIsExact(b, targets);
    var found := Scanned(b, targets);
    if found.Ready? {
      SentIsExact(b.channels, found.permits, msg);
    }
  }

  /** No queue grows past its capacity. */
  lemma CapacityKept<M>(b: Bus<M>, f: Flat, subject: string, msg: M, id: nat)
    requires Refines(b.table, f) && id in b.channels && |b.channels[id].items| <= 128
    ensures var after := Dispatched(b, subject, msg).0;
            id in after.channels && |after.channels[id].items| <= 128
  {
    AllOrNothing(b, f, subject, msg);
    var targets := AllTargets(b.table.bindings, subject);
    if Dispatched(b, subject, msg).1 && Gets(b, targets, id) {
      assert !Blocked(b, id);
    }
  }

  /** An accepted group message goes to the member whose turn it is, if that member is still there,
      and otherwise to nobody: delivery within a group is at most once. */
  lemma {:induction false} GroupDelivery<M>(b: Bus<M>, f: Flat, subject: string, msg: M, q: string, member: nat)
    requires Refines(b.table, f) && q in f.queues && Matches(Split(f.queues[q]), Split(subject))
    requires member in IdsOf(f.subs, f.queues[q], Some(q)) && Known(b, member)
    ensures var (after, accepted) := Dispatched(b, subject, msg);
            && member in after.channels
            && after.channels[member] ==
                 if accepted && Turn(b.table, f, q) == Some(member) && b.channels[member].open
                 then Put(b.channels[member], msg) else b.channels[member]
  {
    AllOrNothing(b, f, subject, msg);
    GroupsGetOneEach(b.table, f, subject, q);
  }

  lemma {:induction false} RemovalsKeepIndex(t: Table, f: Flat, dead: seq<nat>, q: string)
    requires Refines(t, f) && Groups.Known(t, q)
    ensures Groups.Known(WithoutAll(t, dead), q) && Groups.GroupOf(WithoutAll(t, dead), q).rr == Groups.GroupOf(t, q).rr
  {
    if dead != [] {
      var front := dead[..|dead| - 1];
      RemovalsKeepIndex(t, f, front, q);
      Runs.DeadRefine(t, f, front);
      Groups.IndexMoves(WithoutAll(t, front), Runs.FlatWithout(f, front), OpRemove(dead[|dead| - 1]), q);
    }
  }

  lemma GroupIsListed(t: Table, f: Flat, q: string)
    requires Refines(t, f) && q in f.queues
    ensures Groups.Known(t, q) && Groups.GroupOf(t, q).queue == Some(q)
    ensures Groups.GroupOf(t, q).pattern == f.queues[q]
    ensures Groups.GroupOf(t, q).consumers == IdsOf(f.subs, f.queues[q], Some(q))
  {
    QueueKnown(t, f, "", q);
    assert BindingOk(f, Groups.GroupOf(t, q));
  }

  /** The group has members and its pattern matches. */
  predicate Turns(f: Flat, subject: string, q: string)
    requires q in f.queues
  {
    Matches(Split(f.queues[q]), Split(subject)) && IdsOf(f.subs, f.queues[q], Some(q)) != []
  }

  lemma PickOfGroup(t: Table, f: Flat, subject: string, q: string)
    requires Refines(t, f) && q in f.queues
    ensures Groups.Known(t, q) && |Groups.Pick(t, OpRoute(subject), q)| == if Turns(f, subject, q) then 1 else 0
  {
    GroupIsListed(t, f, q);
  }

  lemma RouteTurns(t: Table, f: Flat, subject: string, q: string)
    requires Refines(t, f) && q in f.queues
    ensures var u := TableStep(t, OpRoute(subject));
            && Groups.Known(t, q) && Groups.Known(u, q)
            && Groups.GroupOf(u, q).rr == Groups.GroupOf(t, q).rr + if Turns(f, subject, q) then 1 else 0
  {
    PickOfGroup(t, f, subject, q);
    Groups.IndexMoves(t, f, OpRoute(subject), q);
  }

  lemma {:induction false} TurnsThenForgets(t: Table, f: Flat, subject: string, dead: seq<nat>, q: string)
    requires Refines(t, f) && q in f.queues
    ensures var u := WithoutAll(TableStep(t, OpRoute(subject)), dead);
            && Groups.Known(t, q) && Groups.Known(u, q)
            && Groups.GroupOf(u, q).rr == Groups.GroupOf(t, q).rr + if Turns(f, subject, q) then 1 else 0
  {
    RouteTurns(t, f, subject, q);
    RouteRefines(t, f, subject);
    RemovalsKeepIndex(TableStep(t, OpRoute(subject)), f, dead, q);
  }

  lemma {:induction false} DispatchedTable<M>(b: Bus<M>, subject: string, msg: M)
    ensures Dispatched(b, subject, msg).0.table
         == WithoutAll(TableStep(b.table, OpRoute(subject)), Scanned(b, AllTargets(b.table.bindings, subject)).dead)
  {
  }

  /** Accepted or refused, a dispatch moves the index of every matching group that has members by
      one, and no other group's. */
  lemma IndicesTurnEitherWay<M>(b: Bus<M>, f: Flat, subject: string, msg: M, q: string)
    requires Refines(b.table, f) && q in f.queues
    ensures var after := Dispatched(b, subject, msg).0.table;
            && Groups.Known(b.table, q) && Groups.Known(after, q)
            && Groups.GroupOf(after, q).rr == Groups.GroupOf(b.table, q).rr + if Turns(f, subject, q) then 1 else 0
  {
    DispatchedTable(b, subject, msg);
    TurnsThenForgets(b.table, f, subject, Scanned(b, AllTargets(b.table.bindings, subject)).dead, q);
  }

  /** The target at `i` was looked at: no live one before it is full. */
  ghost predicate LookedAt<M>(b: Bus<M>, targets: seq<nat>, i: nat) {
    i < |targets| && forall j :: 0 <= j < i ==> !Blocked(b, targets[j])
  }

  ghost predicate FoundGone<M>(b: Bus<M>, targets: seq<nat>, id: nat) {
    exists i :: 0 <= i < |targets| && LookedAt(b, targets, i) && targets[i] == id && Gone(b, id)
  }

  lemma FoundGoneNext<M>(b: Bus<M>, front: seq<nat>, last: nat, id: nat)
    ensures FoundGone(b, front + [last], id) <==>
              FoundGone(b, front, id) || (LookedAt(b, front + [last], |front|) && last == id && Gone(b, id))
  {
    var targets := front + [last];
    forall i | 0 <= i < |front| ensures LookedAt(b, targets, i) <==> LookedAt(b, front, i) {
      assert forall j :: 0 <= j < i ==> targets[j] == front[j];
    }
    if FoundGone(b, front, id) {
      var i :| 0 <= i < |front| && LookedAt(b, front, i) && front[i] == id && Gone(b, id);
      assert LookedAt(b, targets, i) && targets[i] == id;
    }
    if LookedAt(b, targets, |front|) && last == id && Gone(b, id) {
      assert targets[|front|] == id;
    }
  }

  /** The targets found gone are those before the first full one. */
  lemma {:induction false} DeadAreExact<M>(b: Bus<M>, targets: seq<nat>, id: nat)
    requires Distinct(targets)
    ensures id in Scanned(b, targets).dead <==> FoundGone(b, targets, id)
  {
    if targets != [] {
      var front, last := targets[..|targets| - 1], targets[|targets| - 1];
      DistinctFront(targets);
      DeadAreExact(b, front, id);
      assert targets == front + [last];
      FoundGoneNext(b, front, last, id);
      LastLookedAt(b, targets);
      DeadNext(b, targets, id);
    }
  }

  lemma DeadNext<M>(b: Bus<M>, targets: seq<nat>, id: nat)
    requires targets != []
    ensures var front, last := targets[..|targets| - 1], targets[|targets| - 1];
            id in Scanned(b, targets).dead <==>
              id in Scanned(b, front).dead || (Scanned(b, front).Ready? && last == id && Gone(b, id))
  {
  }

  lemma LastLookedAt<M>(b: Bus<M>, targets: seq<nat>)
    requires Distinct(targets) && targets != []
    ensures LookedAt(b, targets, |targets| - 1) <==> Scanned(b, targets[..|targets| - 1]).Ready?
  {
    var front := targets[..|targets| - 1];
    DistinctFront(targets);
    ScanIsExact(b, front);
    assert forall j :: 0 <= j < |front| ==> front[j] == targets[j] && front[j] in front;
    if Scanned(b, front).Full? {
      var id :| id in front && Blocked(b, id);
      var j :| 0 <= j < |front| && front[j] == id;
      assert Blocked(b, targets[j]);
    }
  }

  /** A refused dispatch changes nothing else, but that the targets it found gone are forgotten. */
  lemma {:induction false} RefusalStillTurns<M>(b: Bus<M>, f: Flat, subject: string, msg: M, q: string)
    requires Refines(b.table, f) && q in f.queues && !Dispatched(b, subject, msg).1
    ensures var after := Dispatched(b, subject, msg).0;
            && after.channels == b.channels
            && (forall id :: id in after.senders <==>
                  id in b.senders && !FoundGone(b, AllTargets(b.table.bindings, subject), id))
            && Groups.Known(b.table, q) && Groups.Known(after.table, q)
            && Groups.GroupOf(after.table, q).rr == Groups.GroupOf(b.table, q).rr
               + if Turns(f, subject, q) then 1 else 0
  {
    IndicesTurnEitherWay(b, f, subject, msg, q);
    RouteIsExact(b.table, f, subject);
    forall id ensures id in Scanned(b, AllTargets(b.table.bindings, subject)).dead
                 <==> FoundGone(b, AllTargets(b.table.bindings, subject), id) {
      DeadAreExact(b, AllTargets(b.table.bindings, subject), id);
    }
  }

  // ---------- one command without readers in between ----------

  /** The actor's steps until it is ready for the next command. */
  function Drive<M>(w: Runs.World<M>): Runs.World<M>
    decreases match w.phase
              case Idle => 0
              case Sending(left) => 1 + |left|
              case Reserving(_, todo, _, permits) => 2 + 2 * |todo| + |permits|
  {
    if w.phase.Idle? then w else Drive(Runs.ApplyAdvance(w))
  }

  lemma {:induction false} DriveSends<M>(w: Runs.World<M>, channels: map<nat, Channel<M>>, done: seq<nat>)
    requires w.phase.Sending? && w.posts != []
    requires w.bus.channels == Sent(channels, done, w.posts[|w.posts| - 1].msg)
    ensures Drive(w).bus == w.bus.(channels := Sent(channels, done + w.phase.left, w.posts[|w.posts| - 1].msg))
    ensures Drive(w).posts == w.posts
    decreases |w.phase.left|
  {
    if w.phase.left == [] {
      assert done + w.phase.left == done;
      assert Drive(Runs.ApplyAdvance(w)) == Runs.ApplyAdvance(w);
    } else {
      var id := w.phase.left[0];
      assert (done + [id])[..|done + [id]| - 1] == done;
      assert done + w.phase.left == done + [id] + w.phase.left[1..];
      DriveSends(Runs.ApplyAdvance(w), channels, done + [id]);
    }
  }

  function Outcome<M>(b: Bus<M>, targets: seq<nat>, msg: M): (Bus<M>, bool) {
    match Scanned(b, targets)
    case Full(dead) => (Forgotten(b, b.table, dead), false)
    case Ready(dead, permits) => (Forgotten(b, b.table, dead).(channels := Sent(b.channels, permits, msg)), true)
  }

  ghost predicate DrivesTo<M>(w: Runs.World<M>, outcome: (Bus<M>, bool), post: Runs.Post<M>) {
    Drive(w).bus == outcome.0 && Drive(w).posts == w.posts + if outcome.1 then [post] else []
  }

  lemma {:induction false} DriveRefuses<M>(w: Runs.World<M>, done: seq<nat>, id: nat, rest: seq<nat>)
    requires w.phase.Reserving? && w.phase.todo == [id] + rest
    requires Scanned(w.bus, done + [id]).Full? && Reserve(w.bus, w.phase.dead, w.phase.permits, id) == Scanned(w.bus, done + [id])
    ensures DrivesTo(w, Outcome(w.bus, done + [id] + rest, w.phase.post.msg), w.phase.post)
  {
    assert (done + [id] + rest)[..|done| + 1] == done + [id];
    FullStays(w.bus, done + [id] + rest, |done| + 1);
    assert Drive(Runs.ApplyAdvance(w)) == Runs.ApplyAdvance(w);
  }

  lemma {:induction false} DriveAccepts<M>(w: Runs.World<M>, done: seq<nat>)
    requires w.phase.Reserving? && w.phase.todo == [] && Scanned(w.bus, done) == Ready(w.phase.dead, w.phase.permits)
    ensures DrivesTo(w, Outcome(w.bus, done, w.phase.post.msg), w.phase.post)
  {
    DriveSends(Runs.ApplyAdvance(w), w.bus.channels, []);
    assert [] + w.phase.permits == w.phase.permits;
  }

  lemma {:induction false} DriveReserves<M>(w: Runs.World<M>, done: seq<nat>)
    requires w.phase.Reserving? && Scanned(w.bus, done) == Ready(w.phase.dead, w.phase.permits)
    ensures DrivesTo(w, Outcome(w.bus, done + w.phase.todo, w.phase.post.msg), w.phase.post)
    decreases |w.phase.todo|
  {
    if w.phase.todo == [] {
      assert done + w.phase.todo == done;
      DriveAccepts(w, done);
    } else {
      var id, rest := w.phase.todo[0], w.phase.todo[1..];
      assert (done + [id])[..|done + [id]| - 1] == done;
      assert w.phase.todo == [id] + rest && done + w.phase.todo == done + [id] + rest;
      assert Scanned(w.bus, done + [id]) == Reserve(w.bus, w.phase.dead, w.phase.permits, id);
      if Scanned(w.bus, done + [id]).Full? {
        DriveRefuses(w, done, id, rest);
      } else {
        DriveReserves(Runs.ApplyAdvance(w), done + [id]);
      }
    }
  }

  /** With no reader in between, the steps of a dispatch add up to `Dispatched`. */
  lemma QuietDispatch<M>(w: Runs.World<M>, subject: string, msg: M)
    requires w.phase.Idle?
    ensures Drive(Runs.ApplyDispatch(w, subject, msg)).bus == Dispatched(w.bus, subject, msg).0
    ensures Drive(Runs.ApplyDispatch(w, subject, msg)).posts
         == w.posts + if Dispatched(w.bus, subject, msg).1 then [Runs.Post(subject, msg)] else []
  {
    var begun, targets := Runs.ApplyDispatch(w, subject, msg), AllTargets(w.bus.table.bindings, subject);
    ScanIgnoresTable(w.bus, begun.bus, targets);
    DriveReserves(begun, []);
    assert [] + targets == targets;
  }
}
