/** What every run of the outbox source keeps: where each lease is, and what was done with it. */
module OutboxSafety {
  import opened Options
  import opened RouteJob
  import opened OutboxModel

  predicate At(claims: map<string, Claim>, h: Held, stage: Stage) {
    h.token in claims && claims[h.token] == Claim(h.id, stage)
  }

  predicate Known(claims: map<string, Claim>, h: Held) {
    h.token in claims && claims[h.token].id == h.id
  }

  /** Tokens are unique, and a token of ours on a record is for that record. */
  ghost predicate StoreOk(s: Store, claims: map<string, Claim>) {
    && (forall t :: t in claims ==> t in s.used)
    && (forall id :: id in s.rows && s.rows[id].lease.Some? ==> LeaseOk(s, claims, id, s.rows[id].lease.value.token))
  }

  predicate LeaseOk(s: Store, claims: map<string, Claim>, id: string, token: string) {
    token in s.used && (token in claims ==> claims[token].id == id)
  }

  function Hand(c: Claimer): seq<Held> {
    match c
    case Clearing(first, excess) => [first] + excess
    case Failing(h) => [h]
    case _ => []
  }

  /** The claim loop holds exactly the loose leases, each once. */
  ghost predicate HandOk(hand: seq<Held>, claims: map<string, Claim>) {
    && (forall i :: 0 <= i < |hand| ==> At(claims, hand[i], Loose))
    && (forall i, j :: 0 <= i < j < |hand| ==> hand[i].token != hand[j].token)
    && (forall t :: t in claims && claims[t].stage.Loose? ==> Held(claims[t].id, t) in hand)
  }

  predicate Unconfirmed(c: Claimer, d: nat, h: Held) {
    c == Registering(d, h, false)
  }

  /** A registration under way is that of the claim loop. */
  ghost predicate QueueOk(c: Claimer, queue: seq<Command>, claims: map<string, Claim>) {
    && (forall i :: 0 <= i < |queue| && queue[i].Register? ==> Unconfirmed(c, queue[i].d, queue[i].held))
    && (forall i, j :: 0 <= i < j < |queue| ==> !(queue[i].Register? && queue[j].Register?))
    && (c.Registering? && !c.confirmed ==> At(claims, c.held, Queued(c.d)) && Register(c.d, c.held) in queue)
    && (forall t :: t in claims && claims[t].stage.Queued? ==> Unconfirmed(c, claims[t].stage.d, Held(claims[t].id, t)))
  }

  /** The actor's map holds exactly the leases that are pending, while the actor lives. */
  ghost predicate PendingOk(pending: map<nat, Held>, actor: Actor, claims: map<string, Claim>) {
    && (forall d :: d in pending ==> At(claims, pending[d], Pending(d)))
    && (!actor.Stopped? ==> forall t :: t in claims && claims[t].stage.Pending? ==>
          claims[t].stage.d in pending && pending[claims[t].stage.d] == Held(claims[t].id, t))
    && (actor.Waiting? ==> At(claims, actor.held, Settling(actor.d)))
    && (!actor.Stopped? ==> forall t :: t in claims && claims[t].stage.Settling? ==>
          actor.Waiting? && actor.d == claims[t].stage.d && actor.held == Held(claims[t].id, t))
  }

  predicate Numbered(stage: Stage) {
    stage.Queued? || stage.Pending? || stage.Settling?
  }

  /** Every delivery number belongs to one lease. */
  ghost predicate DeliveredOk(delivered: map<nat, Held>, next: nat, claims: map<string, Claim>) {
    && (forall d :: d in delivered ==> d < next && Known(claims, delivered[d]))
    && (forall t :: t in claims && Numbered(claims[t].stage) ==>
          claims[t].stage.d in delivered && delivered[claims[t].stage.d] == Held(claims[t].id, t))
  }

  predicate Renewing(stage: Stage) {
    stage.Pending? || stage.Settling?
  }

  /** Only pending leases, and the one about to be settled, have a renewal task. */
  ghost predicate RenewalsOk(renewals: map<string, Renewal>, claims: map<string, Claim>) {
    forall t :: t in renewals ==> Known(claims, Held(renewals[t].id, t)) && Renewing(claims[t].stage)
  }

  /** The call in progress is for a lease whose settlement began, and was asked for. */
  ghost predicate ActorOk(actor: Actor, queue: seq<Command>, claims: map<string, Claim>, delivered: map<nat, Held>,
                          asked: set<(nat, Decision)>) {
    && (forall i :: 0 <= i < |queue| && queue[i].Settle? ==> (queue[i].d, queue[i].decision) in asked)
    && (actor.Waiting? ==> (actor.d, actor.decision) in asked)
    && (actor.Calling? ==>
          (actor.d, actor.decision) in asked && At(claims, actor.held, Spent)
          && actor.d in delivered && delivered[actor.d] == actor.held)
  }

  /** A call that ends a lease: its settlement, or the claim loop giving it back. */
  predicate Ends(c: Call) {
    !c.kind.Renews?
  }

  /** After a call that ends a lease no further call for that lease begins. */
  ghost predicate Final(log: seq<Call>) {
    forall i, j :: 0 <= i < j < |log| && Ends(log[i]) ==> log[j].held.token != log[i].held.token
  }

  ghost predicate CallOk(c: Call, claims: map<string, Claim>, delivered: map<nat, Held>, asked: set<(nat, Decision)>) {
    && Known(claims, c.held)
    && (Ends(c) ==> claims[c.held.token].stage.Spent?)
    && (c.kind.Settles? ==>
          (c.kind.d, c.kind.decision) in asked && c.kind.d in delivered && delivered[c.kind.d] == c.held)
  }

  ghost predicate WasEnded(log: seq<Call>, token: string) {
    exists i :: 0 <= i < |log| && Ends(log[i]) && log[i].held.token == token
  }

  ghost predicate LogOk(log: seq<Call>, claims: map<string, Claim>, delivered: map<nat, Held>, asked: set<(nat, Decision)>) {
    && Final(log)
    && (forall i :: 0 <= i < |log| ==> CallOk(log[i], claims, delivered, asked))
    && (forall t :: t in claims && claims[t].stage.Spent? ==> WasEnded(log, t))
  }

  ghost predicate Inv(w: World) {
    && StoreOk(w.store, w.claims) && HandOk(Hand(w.claimer), w.claims)
    && QueueOk(w.claimer, w.queue, w.claims)
    && PendingOk(w.pending, w.actor, w.claims)
    && DeliveredOk(w.delivered, w.nextDelivery, w.claims)
    && RenewalsOk(w.renewals, w.claims)
    && ActorOk(w.actor, w.queue, w.claims, w.delivered, w.asked)
    && LogOk(w.log, w.claims, w.delivered, w.asked)
  }

  // ---------- one lease moves ----------

  lemma MoveStore(s: Store, claims: map<string, Claim>, h: Held, stage: Stage)
    requires StoreOk(s, claims) && Known(claims, h)
    ensures StoreOk(s, Moved(claims, h, stage))
  {
  }

  lemma MoveDelivered(delivered: map<nat, Held>, next: nat, claims: map<string, Claim>, h: Held, stage: Stage)
    requires DeliveredOk(delivered, next, claims) && Known(claims, h)
    requires Numbered(stage) ==> stage.d in delivered && delivered[stage.d] == h
    ensures DeliveredOk(delivered, next, Moved(claims, h, stage))
  {
  }

  lemma MoveLog(log: seq<Call>, claims: map<string, Claim>, delivered: map<nat, Held>, asked: set<(nat, Decision)>,
                h: Held, stage: Stage)
    requires LogOk(log, claims, delivered, asked) && Known(claims, h) && !claims[h.token].stage.Spent?
    requires !stage.Spent?
    ensures LogOk(log, Moved(claims, h, stage), delivered, asked)
  {
  }

  /** A call that ends a lease begins. */
  lemma EndLog(log: seq<Call>, claims: map<string, Claim>, delivered: map<nat, Held>, asked: set<(nat, Decision)>, c: Call)
    requires LogOk(log, claims, delivered, asked) && Known(claims, c.held) && !claims[c.held.token].stage.Spent?
    requires Ends(c) && CallOk(c, Moved(claims, c.held, Spent), delivered, asked)
    ensures LogOk(log + [c], Moved(claims, c.held, Spent), delivered, asked)
  {
    var after, all := Moved(claims, c.held, Spent), log + [c];
    forall i | 0 <= i < |all| ensures CallOk(all[i], after, delivered, asked) {
      if i < |log| { assert CallOk(log[i], claims, delivered, asked); }
    }
    forall i, j | 0 <= i < j < |all| && Ends(all[i]) ensures all[j].held.token != all[i].held.token {
      assert CallOk(log[i], claims, delivered, asked);
    }
    forall t | t in after && after[t].stage.Spent? ensures WasEnded(all, t) {
      if t == c.held.token {
        assert all[|log|] == c;
      } else {
        assert WasEnded(log, t);
        var i :| 0 <= i < |log| && Ends(log[i]) && log[i].held.token == t;
        assert all[i] == log[i];
      }
    }
  }

  /** A renewal call begins. */
  lemma RenewLog(log: seq<Call>, claims: map<string, Claim>, delivered: map<nat, Held>, asked: set<(nat, Decision)>, h: Held)
    requires LogOk(log, claims, delivered, asked) && Known(claims, h) && !claims[h.token].stage.Spent?
    ensures LogOk(log + [Call(Renews, h)], claims, delivered, asked)
  {
    var all := log + [Call(Renews, h)];
    forall i, j | 0 <= i < j < |all| && Ends(all[i]) ensures all[j].held.token != all[i].held.token {
      assert CallOk(log[i], claims, delivered, asked);
    }
    forall t | t in claims && claims[t].stage.Spent? ensures WasEnded(all, t) {
      assert WasEnded(log, t);
      var i :| 0 <= i < |log| && Ends(log[i]) && log[i].held.token == t;
      assert all[i] == log[i];
    }
  }

  // ---------- the store ----------

  lemma {:induction false} LeasedRows(s: Store, claims: map<string, Claim>, got: seq<Held>, until: nat)
    requires StoreOk(s, claims)
    requires forall i :: 0 <= i < |got| ==> got[i].token in claims ==> claims[got[i].token].id == got[i].id
    ensures var t := Leased(s, got, until);
            && (forall x :: x in t.used <==> x in s.used || exists i :: 0 <= i < |got| && got[i].token == x)
            && StoreOk(t, claims)
  {
    if got != [] {
      var front, h := got[..|got| - 1], got[|got| - 1];
      LeasedRows(s, claims, front, until);
      var a, b := Leased(s, front, until), Leased(s, got, until);
      forall id | id in b.rows && b.rows[id].lease.Some? ensures LeaseOk(b, claims, id, b.rows[id].lease.value.token) {
        if id != h.id { assert LeaseOk(a, claims, id, a.rows[id].lease.value.token); }
      }
      forall x ensures x in b.used <==> x in s.used || exists i :: 0 <= i < |got| && got[i].token == x {
        if i :| 0 <= i < |front| && front[i].token == x { assert got[i].token == x; }
        if i :| 0 <= i < |got| && got[i].token == x { assert i < |front| ==> front[i].token == x; }
      }
    }
  }

  // ---------- the other components when one lease moves ----------

  lemma MoveHand(hand: seq<Held>, claims: map<string, Claim>, h: Held, stage: Stage)
    requires HandOk(hand, claims) && Known(claims, h) && !claims[h.token].stage.Loose? && !stage.Loose?
    ensures HandOk(hand, Moved(claims, h, stage))
  {
  }

  /** A loose lease leaves the hand. */
  lemma LeaveHand(a: seq<Held>, h: Held, b: seq<Held>, claims: map<string, Claim>, stage: Stage)
    requires HandOk(a + [h] + b, claims) && !stage.Loose?
    ensures At(claims, h, Loose) && HandOk(a + b, Moved(claims, h, stage))
  {
    var hand, rest, after := a + [h] + b, a + b, Moved(claims, h, stage);
    assert hand[|a|] == h;
    forall i | 0 <= i < |rest| ensures At(after, rest[i], Loose) {
      assert rest[i] == hand[if i < |a| then i else i + 1];
    }
    forall i, j | 0 <= i < j < |rest| ensures rest[i].token != rest[j].token {
      assert rest[i] == hand[if i < |a| then i else i + 1] && rest[j] == hand[if j < |a| then j else j + 1];
    }
    forall t | t in after && after[t].stage.Loose? ensures Held(after[t].id, t) in rest {
      assert Held(claims[t].id, t) in hand && Held(claims[t].id, t) != h;
    }
  }

  lemma MoveQueue(c: Claimer, queue: seq<Command>, claims: map<string, Claim>, h: Held, stage: Stage)
    requires QueueOk(c, queue, claims) && Known(claims, h) && !claims[h.token].stage.Queued? && !stage.Queued?
    ensures QueueOk(c, queue, Moved(claims, h, stage))
  {
  }

  lemma MovePending(pending: map<nat, Held>, actor: Actor, claims: map<string, Claim>, h: Held, stage: Stage)
    requires PendingOk(pending, actor, claims) && Known(claims, h)
    requires !Renewing(claims[h.token].stage) && !Renewing(stage)
    ensures PendingOk(pending, actor, Moved(claims, h, stage))
  {
  }

  lemma MoveRenewals(renewals: map<string, Renewal>, claims: map<string, Claim>, h: Held, stage: Stage)
    requires RenewalsOk(renewals, claims) && Known(claims, h) && (h.token in renewals ==> Renewing(stage))
    ensures RenewalsOk(renewals, Moved(claims, h, stage))
  {
  }

  lemma MoveActor(actor: Actor, queue: seq<Command>, claims: map<string, Claim>, delivered: map<nat, Held>,
                  asked: set<(nat, Decision)>, h: Held, stage: Stage)
    requires ActorOk(actor, queue, claims, delivered, asked) && Known(claims, h) && !claims[h.token].stage.Spent?
    ensures ActorOk(actor, queue, Moved(claims, h, stage), delivered, asked)
  {
  }

  /** What a loose lease touches when it leaves the hand: only the queue is not settled here. */
  lemma MoveLoose(w: World, h: Held, stage: Stage)
    requires StoreOk(w.store, w.claims) && PendingOk(w.pending, w.actor, w.claims) && RenewalsOk(w.renewals, w.claims)
    requires ActorOk(w.actor, w.queue, w.claims, w.delivered, w.asked)
    requires At(w.claims, h, Loose) && !Renewing(stage)
    ensures var after := Moved(w.claims, h, stage);
            && StoreOk(w.store, after) && PendingOk(w.pending, w.actor, after) && RenewalsOk(w.renewals, after)
            && ActorOk(w.actor, w.queue, after, w.delivered, w.asked)
  {
    MoveStore(w.store, w.claims, h, stage);
    MovePending(w.pending, w.actor, w.claims, h, stage);
    NotRenewed(w.renewals, w.claims, h);
    MoveRenewals(w.renewals, w.claims, h, stage);
    MoveActor(w.actor, w.queue, w.claims, w.delivered, w.asked, h, stage);
  }

  /** A lease in the claim loop's hands, or on its way to the actor, has no renewal task. */
  lemma NotRenewed(renewals: map<string, Renewal>, claims: map<string, Claim>, h: Held)
    requires RenewalsOk(renewals, claims) && Known(claims, h) && !Renewing(claims[h.token].stage)
    ensures h.token !in renewals
  {
  }

  // ---------- the claim loop's steps ----------

  lemma ReleasedStore(s: Store, claims: map<string, Claim>, h: Held, at: nat, applied: bool)
    requires StoreOk(s, claims) && (applied ==> Holds(s, h))
    ensures StoreOk(if applied then Released(s, h, at) else s, claims)
  {
  }

  lemma GivenBackKeeps(cfg: Config, w: World, a: seq<Held>, h: Held, b: seq<Held>, applied: bool, next: Claimer)
    requires Inv(w) && Hand(w.claimer) == a + [h] + b && Hand(next) == a + b
    requires !w.claimer.Registering? && !next.Registering? && (applied ==> Holds(w.store, h))
    ensures Inv(GivenBack(cfg, w, h, applied, next))
  {
    var v := w.(store := if applied then Released(w.store, h, w.now + cfg.retryDelay) else w.store);
    LeaveHand(a, h, b, w.claims, Spent);
    ReleasedStore(w.store, w.claims, h, w.now + cfg.retryDelay, applied);
    MoveLoose(v, h, Spent);
    MoveQueue(w.claimer, w.queue, w.claims, h, Spent);
    OtherClaimer(w.claimer, next, w.queue, Moved(w.claims, h, Spent));
    MoveDelivered(w.delivered, w.nextDelivery, w.claims, h, Spent);
    EndLog(w.log, w.claims, w.delivered, w.asked, Call(GivesBack, h));
  }

  lemma OtherClaimer(c: Claimer, next: Claimer, queue: seq<Command>, claims: map<string, Claim>)
    requires QueueOk(c, queue, claims) && !c.Registering? && !next.Registering?
    ensures QueueOk(next, queue, claims)
  {
  }

  lemma {:induction false} AllLooseIs(claims: map<string, Claim>, got: seq<Held>)
    requires forall i, j :: 0 <= i < j < |got| ==> got[i].token != got[j].token
    ensures var after := AllLoose(claims, got);
            && (forall i :: 0 <= i < |got| ==> At(after, got[i], Loose))
            && (forall t :: t in after <==> t in claims || exists i :: 0 <= i < |got| && got[i].token == t)
            && (forall t :: t in claims && (forall i :: 0 <= i < |got| ==> got[i].token != t) ==> after[t] == claims[t])
  {
    if got != [] {
      var front, h := got[..|got| - 1], got[|got| - 1];
      AllLooseIs(claims, front);
      var after := AllLoose(claims, got);
      forall i | 0 <= i < |got| ensures At(after, got[i], Loose) {
        if i < |front| { assert got[i] == front[i]; }
      }
      forall t ensures t in after <==> t in claims || exists i :: 0 <= i < |got| && got[i].token == t {
        if i :| 0 <= i < |front| && front[i].token == t { assert got[i].token == t; }
        if i :| 0 <= i < |got| && got[i].token == t { assert i < |front| ==> front[i].token == t; }
      }
      forall t | t in claims && (forall i :: 0 <= i < |got| ==> got[i].token != t) ensures after[t] == claims[t] {
        assert got[|front|].token != t;
        assert forall i :: 0 <= i < |front| ==> front[i].token == got[i].token;
      }
    }
  }

  /** The old leases are as they were, the new ones are loose. */
  ghost predicate Extends(claims: map<string, Claim>, after: map<string, Claim>, got: seq<Held>) {
    && (forall t :: t in claims ==> t in after && after[t] == claims[t])
    && (forall t :: t in after && t !in claims ==> after[t].stage.Loose?)
    && (forall i :: 0 <= i < |got| ==> At(after, got[i], Loose) && got[i].token !in claims)
    && (forall t :: t in after && t !in claims ==> Held(after[t].id, t) in got)
  }

  lemma {:induction false} ClaimExtends(s: Store, now: nat, claims: map<string, Claim>, got: seq<Held>)
    requires StoreOk(s, claims) && ClaimAllowed(s, now, got)
    ensures Extends(claims, AllLoose(claims, got), got)
  {
    AllLooseIs(claims, got);
    var after := AllLoose(claims, got);
    forall t | t in after && t !in claims ensures after[t].stage.Loose? && Held(after[t].id, t) in got {
      var i :| 0 <= i < |got| && got[i].token == t;
      assert At(after, got[i], Loose);
    }
  }

  lemma ExtendLog(log: seq<Call>, claims: map<string, Claim>, delivered: map<nat, Held>, asked: set<(nat, Decision)>,
                  after: map<string, Claim>, got: seq<Held>)
    requires LogOk(log, claims, delivered, asked) && Extends(claims, after, got)
    ensures LogOk(log, after, delivered, asked)
  {
  }

  lemma {:induction false} ExtendStore(s: Store, now: nat, claims: map<string, Claim>, got: seq<Held>, until: nat)
    requires StoreOk(s, claims) && ClaimAllowed(s, now, got)
    ensures StoreOk(Leased(s, got, until), AllLoose(claims, got))
  {
    ClaimExtends(s, now, claims, got);
    var after, t := AllLoose(claims, got), Leased(s, got, until);
    LeasedRows(s, claims, got, until);
    AllLooseIs(claims, got);
    forall id | id in t.rows && t.rows[id].lease.Some? ensures LeaseOk(t, after, id, t.rows[id].lease.value.token) {
      LeasedRow(s, got, until, id);
      if i :| 0 <= i < |got| && got[i].id == id && t.rows[id].lease.value.token == got[i].token {
        assert At(after, got[i], Loose);
      } else {
        assert LeaseOk(s, claims, id, s.rows[id].lease.value.token);
      }
    }
  }

  lemma {:induction false} LeasedRow(s: Store, got: seq<Held>, until: nat, id: string)
    ensures var t := Leased(s, got, until);
            id in t.rows ==>
              || (exists i :: 0 <= i < |got| && got[i].id == id && t.rows[id].lease == Some(Lease(got[i].token, until)))
              || (id in s.rows && t.rows[id] == s.rows[id])
  {
    if got != [] {
      var front, h := got[..|got| - 1], got[|got| - 1];
      LeasedRow(s, front, until, id);
      var t := Leased(s, got, until);
      if id == h.id {
        assert got[|front|] == h;
      } else if id in t.rows {
        if i :| 0 <= i < |front| && front[i].id == id && t.rows[id].lease == Some(Lease(front[i].token, until)) {
          assert got[i] == front[i];
        }
      }
    }
  }

  lemma ExtendHand(claims: map<string, Claim>, after: map<string, Claim>, got: seq<Held>)
    requires HandOk([], claims) && Extends(claims, after, got)
    requires forall i, j :: 0 <= i < j < |got| ==> got[i].token != got[j].token
    ensures HandOk(got, after)
  {
  }

  lemma ExtendQueue(queue: seq<Command>, until: nat, claims: map<string, Claim>, after: map<string, Claim>, got: seq<Held>)
    requires QueueOk(Claiming(until), queue, claims) && Extends(claims, after, got) && got != []
    ensures QueueOk(Clearing(got[0], got[1..]), queue, after)
  {
  }

  lemma ExtendPending(pending: map<nat, Held>, actor: Actor, claims: map<string, Claim>, after: map<string, Claim>, got: seq<Held>)
    requires PendingOk(pending, actor, claims) && Extends(claims, after, got)
    ensures PendingOk(pending, actor, after)
  {
  }

  lemma ExtendNumbers(w: World, after: map<string, Claim>, got: seq<Held>)
    requires DeliveredOk(w.delivered, w.nextDelivery, w.claims) && RenewalsOk(w.renewals, w.claims)
    requires ActorOk(w.actor, w.queue, w.claims, w.delivered, w.asked) && Extends(w.claims, after, got)
    ensures DeliveredOk(w.delivered, w.nextDelivery, after) && RenewalsOk(w.renewals, after)
    ensures ActorOk(w.actor, w.queue, after, w.delivered, w.asked)
  {
  }

  lemma AnsweredKeeps(w: World, got: seq<Held>, until: nat)
    requires Inv(w) && w.claimer.Claiming? && ClaimAllowed(w.store, w.now, got)
    ensures Inv(ApplyAnswered(w, got, until))
  {
    if got != [] {
      var after := AllLoose(w.claims, got);
      ClaimExtends(w.store, w.now, w.claims, got);
      ExtendStore(w.store, w.now, w.claims, got, until);
      ExtendHand(w.claims, after, got);
      assert [got[0]] + got[1..] == got;
      ExtendLog(w.log, w.claims, w.delivered, w.asked, after, got);
      ExtendQueue(w.queue, w.claimer.until, w.claims, after, got);
      ExtendPending(w.pending, w.actor, w.claims, after, got);
      ExtendNumbers(w, after, got);
    }
  }

  lemma SubmitKeeps(w: World)
    requires Inv(w) && w.claimer.Clearing? && w.claimer.excess == []
    ensures Inv(ApplySubmit(w, w.claimer.first))
  {
    assert [] + [w.claimer.first] + [] == [w.claimer.first] + w.claimer.excess == [w.claimer.first];
    if w.actor.Stopped? {
      assert Hand(Failing(w.claimer.first)) == Hand(w.claimer);
      OtherClaimer(w.claimer, Failing(w.claimer.first), w.queue, w.claims);
    } else {
      SubmitSent(w, w.claimer.first, w.nextDelivery);
    }
  }

  lemma SubmitSent(w: World, h: Held, d: nat)
    requires Inv(w) && HandOk([] + [h] + [], w.claims) && d == w.nextDelivery && !w.claimer.Registering?
    ensures Inv(w.(claimer := Registering(d, h, false), nextDelivery := d + 1, queue := w.queue + [Register(d, h)],
                   claims := Moved(w.claims, h, Queued(d)), delivered := w.delivered[d := h], open := w.open + {d}))
  {
    var after := Moved(w.claims, h, Queued(d));
    LeaveHand([], h, [], w.claims, Queued(d));
    assert [] + [] == Hand(Registering(d, h, false));
    MoveLoose(w, h, Queued(d));
    SubmitQueue(w.claimer, w.queue, w.claims, h, d);
    SubmitNumbers(w.delivered, d, w.claims, h);
    NumberedLog(w.log, w.claims, w.delivered, w.asked, d, h);
    MoveLog(w.log, w.claims, w.delivered[d := h], w.asked, h, Queued(d));
    SubmitActor(w.actor, w.queue, after, w.delivered, w.asked, d, h);
  }

  lemma SubmitQueue(c: Claimer, queue: seq<Command>, claims: map<string, Claim>, h: Held, d: nat)
    requires QueueOk(c, queue, claims) && !c.Registering? && Known(claims, h)
    ensures QueueOk(Registering(d, h, false), queue + [Register(d, h)], Moved(claims, h, Queued(d)))
  {
  }

  lemma SubmitActor(actor: Actor, queue: seq<Command>, claims: map<string, Claim>, delivered: map<nat, Held>,
                    asked: set<(nat, Decision)>, d: nat, h: Held)
    requires ActorOk(actor, queue, claims, delivered, asked) && d !in delivered
    ensures ActorOk(actor, queue + [Register(d, h)], claims, delivered[d := h], asked)
  {
  }

  lemma SubmitNumbers(delivered: map<nat, Held>, d: nat, claims: map<string, Claim>, h: Held)
    requires DeliveredOk(delivered, d, claims) && Known(claims, h)
    ensures DeliveredOk(delivered[d := h], d + 1, Moved(claims, h, Queued(d)))
  {
  }

  lemma NumberedLog(log: seq<Call>, claims: map<string, Claim>, delivered: map<nat, Held>, asked: set<(nat, Decision)>,
                    d: nat, h: Held)
    requires LogOk(log, claims, delivered, asked) && d !in delivered
    ensures LogOk(log, claims, delivered[d := h], asked)
  {
  }

  lemma ClaimerKeeps(cfg: Config, w: World, c: ClaimStep)
    requires Inv(w) && EnabledClaimer(w, c)
    ensures Inv(ApplyClaimer(cfg, w, c))
  {
    match c {
      case Poll =>
      case Answered(got) => AnsweredKeeps(w, got, w.claimer.until);
      case NoAnswer =>
      case Wake =>
      case GiveBack(applied) =>
        var first, excess := w.claimer.first, w.claimer.excess;
        assert [first] + excess == [first] + [excess[0]] + excess[1..];
        GivenBackKeeps(cfg, w, [first], excess[0], excess[1..], applied, Clearing(first, excess[1..]));
      case Submit => SubmitKeeps(w);
      case Yield =>
      case GiveUp(applied) =>
        assert [w.claimer.failed] == [] + [w.claimer.failed] + [];
        GivenBackKeeps(cfg, w, [], w.claimer.failed, [], applied, Claimer.Ended);
    }
  }

  // ---------- the actor's steps ----------

  lemma RegisteredQueue(c: Claimer, queue: seq<Command>, claims: map<string, Claim>, d: nat, h: Held)
    requires QueueOk(c, queue, claims) && queue != [] && queue[0] == Register(d, h)
    ensures c == Registering(d, h, false) && At(claims, h, Queued(d))
    ensures QueueOk(Registering(d, h, true), queue[1..], Moved(claims, h, Pending(d)))
  {
  }

  lemma RegisteredPending(pending: map<nat, Held>, actor: Actor, delivered: map<nat, Held>, next: nat,
                          claims: map<string, Claim>, d: nat, h: Held)
    requires PendingOk(pending, actor, claims) && DeliveredOk(delivered, next, claims) && actor.Ready?
    requires At(claims, h, Queued(d))
    ensures PendingOk(pending[d := h], actor, Moved(claims, h, Pending(d)))
  {
  }

  lemma QueueTail(actor: Actor, queue: seq<Command>, claims: map<string, Claim>, delivered: map<nat, Held>,
                  asked: set<(nat, Decision)>)
    requires ActorOk(actor, queue, claims, delivered, asked) && queue != []
    ensures ActorOk(actor, queue[1..], claims, delivered, asked)
  {
  }

  lemma TakeRegisterKeeps(cfg: Config, w: World, d: nat, h: Held)
    requires Inv(w) && w.actor.Ready? && w.queue != [] && w.queue[0] == Register(d, h)
    ensures Inv(TakeRegister(cfg, w, d, h))
  {
    var after := Moved(w.claims, h, Pending(d));
    RegisteredQueue(w.claimer, w.queue, w.claims, d, h);
    MoveStore(w.store, w.claims, h, Pending(d));
    MoveHand(Hand(w.claimer), w.claims, h, Pending(d));
    assert Hand(w.claimer.(confirmed := true)) == Hand(w.claimer);
    RegisteredPending(w.pending, w.actor, w.delivered, w.nextDelivery, w.claims, d, h);
    MoveDelivered(w.delivered, w.nextDelivery, w.claims, h, Pending(d));
    MoveRenewals(w.renewals, w.claims, h, Pending(d));
    MoveActor(w.actor, w.queue, w.claims, w.delivered, w.asked, h, Pending(d));
    QueueTail(w.actor, w.queue, after, w.delivered, w.asked);
    MoveLog(w.log, w.claims, w.delivered, w.asked, h, Pending(d));
    assert RenewalsOk(w.renewals[h.token := Renewal(h.id, None, false)], after);
  }

  lemma SettledQueue(c: Claimer, queue: seq<Command>, claims: map<string, Claim>)
    requires QueueOk(c, queue, claims) && queue != [] && queue[0].Settle?
    ensures QueueOk(c, queue[1..], claims)
  {
  }

  lemma SettledPending(pending: map<nat, Held>, claims: map<string, Claim>, d: nat, h: Held, decision: Decision)
    requires PendingOk(pending, Ready, claims) && d in pending && pending[d] == h
    ensures At(claims, h, Pending(d))
    ensures PendingOk(Without(pending, d), Waiting(d, h, decision), Moved(claims, h, Settling(d)))
  {
  }

  lemma SettledActor(queue: seq<Command>, claims: map<string, Claim>, delivered: map<nat, Held>,
                     asked: set<(nat, Decision)>, d: nat, h: Held, decision: Decision)
    requires ActorOk(Ready, queue, claims, delivered, asked) && queue != [] && queue[0] == Settle(d, decision)
    ensures ActorOk(Waiting(d, h, decision), queue[1..], claims, delivered, asked)
  {
  }

  lemma TakeSettleKeeps(w: World, d: nat, decision: Decision)
    requires Inv(w) && w.actor.Ready? && w.queue != [] && w.queue[0] == Settle(d, decision)
    ensures Inv(TakeSettle(w, d, decision))
  {
    SettledQueue(w.claimer, w.queue, w.claims);
    if d in w.pending {
      var h := w.pending[d];
      var after := Moved(w.claims, h, Settling(d));
      SettledPending(w.pending, w.claims, d, h, decision);
      MoveStore(w.store, w.claims, h, Settling(d));
      MoveHand(Hand(w.claimer), w.claims, h, Settling(d));
      MoveQueue(w.claimer, w.queue[1..], w.claims, h, Settling(d));
      MoveDelivered(w.delivered, w.nextDelivery, w.claims, h, Settling(d));
      MoveRenewals(w.renewals, w.claims, h, Settling(d));
      MoveActor(w.actor, w.queue, w.claims, w.delivered, w.asked, h, Settling(d));
      SettledActor(w.queue, after, w.delivered, w.asked, d, h, decision);
      MoveLog(w.log, w.claims, w.delivered, w.asked, h, Settling(d));
      assert RenewalsOk(Told(w.renewals, h.token), after);
    } else {
      QueueTail(w.actor, w.queue, w.claims, w.delivered, w.asked);
    }
  }

  lemma OverPending(pending: map<nat, Held>, claims: map<string, Claim>, d: nat, h: Held, decision: Decision, at: nat)
    requires PendingOk(pending, Waiting(d, h, decision), claims)
    ensures At(claims, h, Settling(d))
    ensures PendingOk(pending, Calling(d, h, decision, at), Moved(claims, h, Spent))
  {
  }

  lemma RenewalOverKeeps(cfg: Config, w: World)
    requires Inv(w) && EnabledActor(w, RenewalOver)
    ensures Inv(ApplyRenewalOver(cfg, w))
  {
    var d, h, decision := w.actor.d, w.actor.held, w.actor.decision;
    var call := Call(Settles(d, decision), h);
    OverPending(w.pending, w.claims, d, h, decision, w.now + cfg.retryDelay);
    MoveStore(w.store, w.claims, h, Spent);
    MoveHand(Hand(w.claimer), w.claims, h, Spent);
    MoveQueue(w.claimer, w.queue, w.claims, h, Spent);
    MoveDelivered(w.delivered, w.nextDelivery, w.claims, h, Spent);
    MoveRenewals(w.renewals, w.claims, h, Spent);
    EndLog(w.log, w.claims, w.delivered, w.asked, call);
  }

  lemma SettledStore(s: Store, claims: map<string, Claim>, h: Held, decision: Decision, at: nat)
    requires StoreOk(s, claims) && Holds(s, h)
    ensures StoreOk(Settlement(s, h, decision, at), claims)
  {
  }

  lemma ReturnedKeeps(w: World, applied: bool)
    requires Inv(w) && EnabledActor(w, Returned(applied))
    ensures Inv(ApplyReturned(w, applied))
  {
  }

  lemma StopFails(w: World, h: Held)
    requires Inv(w) && w.claimer.Registering? && !w.claimer.confirmed && h == w.claimer.held
    ensures var after := Moved(w.claims, h, Loose);
            HandOk([h], after) && QueueOk(Failing(h), [], after) && PendingOk(map[], Stopped, after)
  {
  }

  lemma StopRest(w: World, renewals: map<string, Renewal>)
    requires Inv(w) && renewals.Keys == w.renewals.Keys && forall t :: t in renewals ==> renewals[t].id == w.renewals[t].id
    ensures RenewalsOk(renewals, w.claims) && ActorOk(Stopped, [], w.claims, w.delivered, w.asked)
  {
  }

  lemma StopLoses(w: World, v: World, h: Held)
    requires Inv(w) && w.claimer.Registering? && !w.claimer.confirmed && h == w.claimer.held
    requires RenewalsOk(v.renewals, w.claims) && ActorOk(Stopped, [], w.claims, w.delivered, w.asked)
    requires v.store == w.store && v.delivered == w.delivered && v.nextDelivery == w.nextDelivery
    requires v.log == w.log && v.asked == w.asked && v.claims == Moved(w.claims, h, Loose) && v.actor.Stopped?
    requires v.claimer == Failing(h) && v.queue == [] && v.pending == map[]
    ensures Inv(v)
  {
    StopFails(w, h);
    MoveStore(w.store, w.claims, h, Loose);
    MoveDelivered(w.delivered, w.nextDelivery, w.claims, h, Loose);
    NotRenewed(v.renewals, w.claims, h);
    MoveRenewals(v.renewals, w.claims, h, Loose);
    MoveActor(Stopped, [], w.claims, w.delivered, w.asked, h, Loose);
    MoveLog(w.log, w.claims, w.delivered, w.asked, h, Loose);
  }

  lemma StopKeeps(w: World)
    requires Inv(w)
    ensures Inv(ApplyStop(w))
  {
    StopRest(w, map t | t in w.renewals :: w.renewals[t].(stop := true));
    if w.claimer.Registering? && !w.claimer.confirmed {
      StopLoses(w, ApplyStop(w), w.claimer.held);
    } else {
      assert QueueOk(w.claimer, [], w.claims);
    }
  }

  lemma ActorKeeps(cfg: Config, w: World, a: ActorStep)
    requires Inv(w) && EnabledActor(w, a)
    ensures Inv(ApplyActor(cfg, w, a))
  {
    match a {
      case Take =>
        match w.queue[0] {
          case Register(d, h) => TakeRegisterKeeps(cfg, w, d, h);
          case Settle(d, decision) => TakeSettleKeeps(w, d, decision);
        }
      case RenewalOver => RenewalOverKeeps(cfg, w);
      case Returned(applied) => ReturnedKeeps(w, applied);
      case Stop => StopKeeps(w);
    }
  }

  // ---------- the renewal tasks' steps, and the others' ----------

  lemma RenewedStore(s: Store, claims: map<string, Claim>, h: Held, until: nat)
    requires StoreOk(s, claims) && Holds(s, h)
    ensures StoreOk(Renewed(s, h, until), claims)
  {
  }

  lemma RenewalKeeps(cfg: Config, w: World, r: RenewalStep)
    requires Inv(w) && EnabledRenewal(w, r)
    ensures Inv(ApplyRenewal(cfg, w, r))
  {
    match r {
      case Begin(t) => RenewLog(w.log, w.claims, w.delivered, w.asked, Held(w.renewals[t].id, t));
      case Done(t, applied) =>
        if applied {
          RenewedStore(w.store, w.claims, Held(w.renewals[t].id, t), w.renewals[t].call.value);
        }
      case End(_) =>
    }
  }

  lemma {:induction false} OtherClaimKeeps(s: Store, now: nat, claims: map<string, Claim>, got: seq<Held>, until: nat)
    requires StoreOk(s, claims) && ClaimAllowed(s, now, got)
    ensures StoreOk(Leased(s, got, until), claims)
  {
    LeasedRows(s, claims, got, until);
  }

  lemma AskKeeps(w: World, d: nat, decision: Decision)
    requires Inv(w)
    ensures Inv(ApplyAsk(w, d, decision))
  {
  }

  lemma OutsideKeeps(w: World, o: OutsideStep)
    requires Inv(w) && EnabledOutside(w, o)
    ensures Inv(ApplyOutside(w, o))
  {
    match o {
      case Ask(d, decision) => AskKeeps(w, d, decision);
      case Tick =>
      case Insert(id) =>
        var s := w.store.(rows := w.store.rows[id := Row(None, 0)]);
        forall x | x in s.rows && s.rows[x].lease.Some? ensures LeaseOk(s, w.claims, x, s.rows[x].lease.value.token) {
          assert LeaseOk(w.store, w.claims, x, w.store.rows[x].lease.value.token);
        }
      case OtherClaims(got, until) => OtherClaimKeeps(w.store, w.now, w.claims, got, until);
      case OtherAcknowledges(h) => SettledStore(w.store, w.claims, h, Ack, 0);
      case OtherReleases(h, at) => SettledStore(w.store, w.claims, h, Retry, at);
      case OtherRenews(h, until) => RenewedStore(w.store, w.claims, h, until);
    }
  }

  // ---------- whole runs ----------

  lemma StepKeeps(cfg: Config, w: World, e: Event)
    requires Inv(w) && Enabled(w, e)
    ensures Inv(Apply(cfg, w, e))
  {
    match e {
      case ByClaimer(c) => ClaimerKeeps(cfg, w, c);
      case ByActor(a) => ActorKeeps(cfg, w, a);
      case ByRenewal(r) => RenewalKeeps(cfg, w, r);
      case Outside(o) => OutsideKeeps(w, o);
    }
  }

  lemma {:induction false} RunKeeps(cfg: Config, now: nat, events: seq<Event>)
    requires Legal(cfg, Start(now), events)
    ensures Inv(Run(cfg, Start(now), events))
  {
    if events != [] {
      RunKeeps(cfg, now, events[..|events| - 1]);
      StepKeeps(cfg, Run(cfg, Start(now), events[..|events| - 1]), events[|events| - 1]);
    }
  }
}
