/** What holds of the leased outbox source in every run. */
module OutboxTheorems {
  import opened Options
  import opened RouteJob
  import opened OutboxModel
  import opened OutboxSafety

  /** Once the settlement of a lease, or its return by the claim loop, has begun, no further store
      call for that lease begins: there is no second settlement, and no renewal. */
  lemma {:induction false} NothingAfterSettlement(cfg: Config, now: nat, events: seq<Event>, i: nat, j: nat)
    requires Legal(cfg, Start(now), events)
    requires var log := Run(cfg, Start(now), events).log;
             i < |log| && j < |log| && i != j && Ends(log[i]) && log[j].held.token == log[i].held.token
    ensures j < i && Run(cfg, Start(now), events).log[j].kind.Renews?
  {
    RunKeeps(cfg, now, events);
  }

  /** A settlement is for the record and the token of the claim that produced the delivery, with a
      decision somebody asked for. */
  lemma {:induction false} SettlesWhatWasDelivered(cfg: Config, now: nat, events: seq<Event>, c: Call)
    requires Legal(cfg, Start(now), events)
    requires c in Run(cfg, Start(now), events).log && c.kind.Settles?
    ensures var w := Run(cfg, Start(now), events);
            && c.kind.d in w.delivered && w.delivered[c.kind.d] == c.held
            && (c.kind.d, c.kind.decision) in w.asked
            && c.held.token in w.claims && w.claims[c.held.token].id == c.held.id
  {
    RunKeeps(cfg, now, events);
    var w := Run(cfg, Start(now), events);
    var i :| 0 <= i < |w.log| && w.log[i] == c;
    assert CallOk(w.log[i], w.claims, w.delivered, w.asked);
  }

  /** The call in progress acknowledges `h` for a delivery that was to be acknowledged or rejected. */
  ghost predicate Acknowledging(w: World, h: Held) {
    && w.actor.Calling? && w.actor.held == h && !w.actor.decision.Retry?
    && w.actor.d in w.delivered && w.delivered[w.actor.d] == h && (w.actor.d, w.actor.decision) in w.asked
    && h.token in w.claims && w.claims[h.token].id == h.id
  }

  lemma {:induction false} LeasedKeepsRows(s: Store, got: seq<Held>, until: nat, id: string)
    requires id in s.rows
    ensures id in Leased(s, got, until).rows
    ensures (forall i :: 0 <= i < |got| ==> got[i].id != id) ==> Leased(s, got, until).rows[id] == s.rows[id]
  {
    if got != [] {
      LeasedKeepsRows(s, got[..|got| - 1], until, id);
      if forall i :: 0 <= i < |got| ==> got[i].id != id {
        assert got[|got| - 1].id != id;
      }
    }
  }

  /** A record leaves the store only by an acknowledgement under its current lease: that of another
      consumer, or that of a delivery of this source which was to be acknowledged or rejected, with
      the token of the claim that produced the delivery. */
  lemma {:induction false} RecordsLeaveByAcknowledgement(cfg: Config, now: nat, events: seq<Event>, e: Event, id: string)
    requires Legal(cfg, Start(now), events) && Enabled(Run(cfg, Start(now), events), e)
    requires id in Run(cfg, Start(now), events).store.rows
    requires id !in Apply(cfg, Run(cfg, Start(now), events), e).store.rows
    ensures var w := Run(cfg, Start(now), events);
            exists h: Held :: h.id == id && Holds(w.store, h) &&
              if h.token in w.claims then e == ByActor(Returned(true)) && Acknowledging(w, h)
              else e == Outside(OtherAcknowledges(h))
  {
    RunKeeps(cfg, now, events);
    var w := Run(cfg, Start(now), events);
    match e {
      case ByClaimer(c) => ClaimerKeepsRow(cfg, w, c, id);
      case ByActor(a) => LeavesByActor(cfg, w, a, id);
      case ByRenewal(r) => RenewalKeepsRow(cfg, w, r, id);
      case Outside(o) => LeavesByOthers(w, o, id);
    }
  }

  lemma ClaimerKeepsRow(cfg: Config, w: World, c: ClaimStep, id: string)
    requires EnabledClaimer(w, c) && id in w.store.rows
    ensures id in ApplyClaimer(cfg, w, c).store.rows
  {
    if c.Answered? {
      LeasedKeepsRows(w.store, c.got, w.claimer.until, id);
    }
  }

  lemma RenewalKeepsRow(cfg: Config, w: World, r: RenewalStep, id: string)
    requires EnabledRenewal(w, r) && id in w.store.rows
    ensures id in ApplyRenewal(cfg, w, r).store.rows
  {
  }

  /** Only a store call that returns changes the store. */
  lemma ActorKeepsStore(cfg: Config, w: World, a: ActorStep)
    requires EnabledActor(w, a) && !a.Returned?
    ensures ApplyActor(cfg, w, a).store == w.store
  {
  }

  lemma LeavesByReturn(w: World, applied: bool, id: string)
    requires ActorOk(w.actor, w.queue, w.claims, w.delivered, w.asked) && EnabledActor(w, Returned(applied))
    requires id in w.store.rows && id !in ApplyReturned(w, applied).store.rows
    ensures applied && w.actor.held.id == id && Holds(w.store, w.actor.held) && Acknowledging(w, w.actor.held)
  {
  }

  lemma LeavesByActor(cfg: Config, w: World, a: ActorStep, id: string)
    requires Inv(w) && EnabledActor(w, a) && id in w.store.rows && id !in ApplyActor(cfg, w, a).store.rows
    ensures a == Returned(true) && w.actor.Calling? && w.actor.held.id == id
    ensures Holds(w.store, w.actor.held) && Acknowledging(w, w.actor.held)
  {
    if a.Returned? {
      LeavesByReturn(w, a.applied, id);
    } else {
      ActorKeepsStore(cfg, w, a);
    }
  }

  lemma LeavesByOthers(w: World, o: OutsideStep, id: string)
    requires EnabledOutside(w, o) && id in w.store.rows && id !in ApplyOutside(w, o).store.rows
    ensures o.OtherAcknowledges? && o.held.id == id && Holds(w.store, o.held) && o.held.token !in w.claims
  {
    if o.OtherClaims? {
      LeasedKeepsRows(w.store, o.got, o.until, id);
    }
  }

  /** A late settlement is harmless: while a record is leased to somebody else, no step of this
      source changes it, except a new claim once that lease has run out. */
  lemma {:induction false} RecordsLeasedElsewhereStay(cfg: Config, now: nat, events: seq<Event>, e: Event, h: Held)
    requires Legal(cfg, Start(now), events) && Enabled(Run(cfg, Start(now), events), e) && !e.Outside?
    requires var w := Run(cfg, Start(now), events); Holds(w.store, h) && h.token !in w.claims
    ensures var w, v := Run(cfg, Start(now), events), Apply(cfg, Run(cfg, Start(now), events), e);
            || (h.id in v.store.rows && v.store.rows[h.id] == w.store.rows[h.id])
            || (e.ByClaimer? && e.c.Answered? && w.store.rows[h.id].lease.value.until <= w.now)
  {
    RunKeeps(cfg, now, events);
    var w := Run(cfg, Start(now), events);
    match e {
      case ByClaimer(c) =>
        if !(c.Answered? && w.store.rows[h.id].lease.value.until <= w.now) {
          ClaimerLeavesAlone(cfg, w, c, h);
        }
      case ByActor(a) => ActorLeavesAlone(cfg, w, a, h);
      case ByRenewal(r) => RenewalLeavesAlone(cfg, w, r, h);
    }
  }

  lemma ClaimerLeavesAlone(cfg: Config, w: World, c: ClaimStep, h: Held)
    requires Inv(w) && EnabledClaimer(w, c) && Holds(w.store, h) && h.token !in w.claims
    requires c.Answered? ==> w.store.rows[h.id].lease.value.until > w.now
    ensures var v := ApplyClaimer(cfg, w, c); h.id in v.store.rows && v.store.rows[h.id] == w.store.rows[h.id]
  {
    match c {
      case Answered(got) =>
        forall i | 0 <= i < |got| ensures got[i].id != h.id {
          assert Claimable(w.store, w.now, got[i].id);
        }
        LeasedKeepsRows(w.store, got, w.claimer.until, h.id);
      case GiveBack(applied) => assert Hand(w.claimer)[1] == w.claimer.excess[0];
      case GiveUp(applied) => assert Hand(w.claimer)[0] == w.claimer.failed;
      case _ =>
    }
  }

  lemma ReturnLeavesAlone(w: World, applied: bool, h: Held)
    requires ActorOk(w.actor, w.queue, w.claims, w.delivered, w.asked) && EnabledActor(w, Returned(applied))
    requires Holds(w.store, h) && h.token !in w.claims
    ensures var v := ApplyReturned(w, applied); h.id in v.store.rows && v.store.rows[h.id] == w.store.rows[h.id]
  {
    assert w.actor.held.token in w.claims;
  }

  lemma ActorLeavesAlone(cfg: Config, w: World, a: ActorStep, h: Held)
    requires Inv(w) && EnabledActor(w, a) && Holds(w.store, h) && h.token !in w.claims
    ensures var v := ApplyActor(cfg, w, a); h.id in v.store.rows && v.store.rows[h.id] == w.store.rows[h.id]
  {
    if a.Returned? {
      ReturnLeavesAlone(w, a.applied, h);
    } else {
      ActorKeepsStore(cfg, w, a);
    }
  }

  lemma RenewalLeavesAlone(cfg: Config, w: World, r: RenewalStep, h: Held)
    requires Inv(w) && EnabledRenewal(w, r) && Holds(w.store, h) && h.token !in w.claims
    ensures var v := ApplyRenewal(cfg, w, r); h.id in v.store.rows && v.store.rows[h.id] == w.store.rows[h.id]
  {
  }

  /** Where a claimed lease is. */
  ghost predicate Accounted(w: World, t: string)
    requires t in w.claims
  {
    var h := Held(w.claims[t].id, t);
    match w.claims[t].stage
    case Loose => h in Hand(w.claimer)
    case Queued(d) => Register(d, h) in w.queue && w.claimer == Registering(d, h, false)
    case Pending(d) => w.actor.Stopped? || (d in w.pending && w.pending[d] == h)
    case Settling(d) => w.actor.Stopped? || (w.actor.Waiting? && w.actor.d == d && w.actor.held == h)
    case Spent => WasEnded(w.log, t)
  }

  /** No claimed lease is ever lost: it is in the hands of the claim loop, on its way to the actor,
      pending, about to be settled, or the store call that ends it has begun. Only what the actor
      held when it stopped is left to run out. */
  lemma {:induction false} LeasesAccounted(cfg: Config, now: nat, events: seq<Event>)
    requires Legal(cfg, Start(now), events)
    ensures var w := Run(cfg, Start(now), events); forall t :: t in w.claims ==> Accounted(w, t)
  {
    RunKeeps(cfg, now, events);
  }

  /** The store call by which the claim loop gave a lease back. */
  ghost predicate GivenBackIn(log: seq<Call>, h: Held) {
    Call(GivesBack, h) in log
  }

  /** Excess records go back: whenever the claim loop has nothing in its hands, every lease it
      claimed that never became a delivery has been given back to the store. */
  lemma {:induction false} ExcessGoesBack(cfg: Config, now: nat, events: seq<Event>, t: string)
    requires Legal(cfg, Start(now), events)
    requires var w := Run(cfg, Start(now), events);
             && Hand(w.claimer) == [] && t in w.claims
             && forall d :: d in w.delivered ==> w.delivered[d].token != t
    ensures var w := Run(cfg, Start(now), events); GivenBackIn(w.log, Held(w.claims[t].id, t))
  {
    RunKeeps(cfg, now, events);
    var w := Run(cfg, Start(now), events);
    assert WasEnded(w.log, t);
    var i :| 0 <= i < |w.log| && Ends(w.log[i]) && w.log[i].held.token == t;
    assert CallOk(w.log[i], w.claims, w.delivered, w.asked);
    assert w.log[i] in w.log;
  }

  // ---------- a consumer that settles each message before it takes the next ----------

  /** Every delivery so far has an answered settlement, or the actor is gone and refuses them all. */
  predicate MayPoll(w: World) {
    w.open == {} || w.actor.Stopped?
  }

  ghost predicate OneAtATime(cfg: Config, w: World, events: seq<Event>) {
    events != [] ==>
      && OneAtATime(cfg, w, events[..|events| - 1])
      && (events[|events| - 1] == ByClaimer(Poll) ==> MayPoll(Run(cfg, w, events[..|events| - 1])))
  }

  predicate InClaim(c: Claimer) {
    c.Paused? || c.Claiming? || c.Clearing?
  }

  ghost predicate Single(w: World) {
    && (forall a, b :: a in w.open && b in w.open ==> a == b)
    && (InClaim(w.claimer) ==> MayPoll(w))
    && (forall t :: t in w.claims && Numbered(w.claims[t].stage) ==> w.claims[t].stage.d in w.open)
  }

  lemma SingleStart(now: nat)
    ensures Single(Start(now))
  {
  }

  lemma SingleAnswered(w: World, got: seq<Held>, until: nat)
    requires StoreOk(w.store, w.claims) && Single(w) && w.claimer.Claiming? && ClaimAllowed(w.store, w.now, got)
    ensures Single(ApplyAnswered(w, got, until))
  {
    if got != [] {
      ClaimExtends(w.store, w.now, w.claims, got);
    }
  }

  lemma SingleClaimer(cfg: Config, w: World, c: ClaimStep)
    requires Inv(w) && Single(w) && EnabledClaimer(w, c) && (c.Poll? ==> MayPoll(w))
    ensures Single(ApplyClaimer(cfg, w, c))
  {
    if c.Answered? {
      SingleAnswered(w, c.got, w.claimer.until);
    }
  }

  /** The delivery whose settlement is in progress is no other lease's. */
  lemma OthersAreNumbered(w: World)
    requires DeliveredOk(w.delivered, w.nextDelivery, w.claims) && w.actor.Calling?
    requires ActorOk(w.actor, w.queue, w.claims, w.delivered, w.asked)
    ensures forall t :: t in w.claims && Numbered(w.claims[t].stage) ==> w.claims[t].stage.d != w.actor.d
  {
    forall t | t in w.claims && Numbered(w.claims[t].stage) ensures w.claims[t].stage.d != w.actor.d {
      assert w.delivered[w.claims[t].stage.d] == Held(w.claims[t].id, t);
    }
  }

  lemma SingleReturned(w: World, applied: bool)
    requires Inv(w) && Single(w) && w.actor.Calling?
    ensures Single(ApplyReturned(w, applied))
  {
    OthersAreNumbered(w);
  }

  lemma SingleRegister(cfg: Config, w: World, d: nat, h: Held)
    requires QueueOk(w.claimer, w.queue, w.claims) && Single(w) && w.queue != [] && w.queue[0] == Register(d, h)
    ensures Single(TakeRegister(cfg, w, d, h))
  {
    RegisteredQueue(w.claimer, w.queue, w.claims, d, h);
  }

  lemma SingleSettle(w: World, d: nat, decision: Decision)
    requires PendingOk(w.pending, w.actor, w.claims) && Single(w) && w.actor.Ready? && w.queue != []
    ensures Single(TakeSettle(w, d, decision))
  {
    if d in w.pending {
      assert At(w.claims, w.pending[d], Pending(d));
    }
  }

  lemma SingleTake(cfg: Config, w: World)
    requires Inv(w) && Single(w) && w.actor.Ready? && w.queue != []
    ensures Single(ApplyActor(cfg, w, Take))
  {
    match w.queue[0] {
      case Register(d, h) => SingleRegister(cfg, w, d, h);
      case Settle(d, decision) => SingleSettle(w, d, decision);
    }
  }

  lemma SingleActor(cfg: Config, w: World, a: ActorStep)
    requires Inv(w) && Single(w) && EnabledActor(w, a)
    ensures Single(ApplyActor(cfg, w, a))
  {
    match a {
      case Take => SingleTake(cfg, w);
      case RenewalOver =>
      case Returned(applied) => SingleReturned(w, applied);
      case Stop =>
    }
  }

  predicate SameLeases(w: World, v: World) {
    v.open == w.open && v.claimer == w.claimer && v.claims == w.claims && v.actor == w.actor
  }

  lemma RenewalsKeepLeases(cfg: Config, w: World, r: RenewalStep)
    ensures SameLeases(w, ApplyRenewal(cfg, w, r))
  {
  }

  lemma OthersKeepLeases(w: World, o: OutsideStep)
    ensures SameLeases(w, ApplyOutside(w, o))
  {
  }

  lemma SingleSame(w: World, v: World)
    requires Single(w) && SameLeases(w, v)
    ensures Single(v)
  {
  }

  lemma SingleStep(cfg: Config, w: World, e: Event)
    requires Inv(w) && Single(w) && Enabled(w, e) && (e == ByClaimer(Poll) ==> MayPoll(w))
    ensures Single(Apply(cfg, w, e))
  {
    match e {
      case ByClaimer(c) => SingleClaimer(cfg, w, c);
      case ByActor(a) => SingleActor(cfg, w, a);
      case ByRenewal(r) =>
        RenewalsKeepLeases(cfg, w, r);
        SingleSame(w, ApplyRenewal(cfg, w, r));
      case Outside(o) =>
        OthersKeepLeases(w, o);
        SingleSame(w, ApplyOutside(w, o));
    }
  }

  lemma {:induction false} SingleRun(cfg: Config, now: nat, events: seq<Event>)
    requires Legal(cfg, Start(now), events) && OneAtATime(cfg, Start(now), events)
    ensures Single(Run(cfg, Start(now), events))
  {
    if events == [] {
      SingleStart(now);
    } else {
      var front := events[..|events| - 1];
      var w := Run(cfg, Start(now), front);
      SingleRun(cfg, now, front);
      RunKeeps(cfg, now, front);
      SingleStep(cfg, w, events[|events| - 1]);
    }
  }

  /** Such a consumer never has more than one lease registered, pending or being settled. */
  lemma {:induction false} AtMostOnePending(cfg: Config, now: nat, events: seq<Event>)
    requires Legal(cfg, Start(now), events) && OneAtATime(cfg, Start(now), events)
    ensures var w := Run(cfg, Start(now), events);
            && (forall a, b :: a in w.pending && b in w.pending ==> a == b)
            && (forall s, t :: s in w.claims && t in w.claims && Numbered(w.claims[s].stage) && Numbered(w.claims[t].stage)
                  ==> s == t)
  {
    RunKeeps(cfg, now, events);
    SingleRun(cfg, now, events);
    var w := Run(cfg, Start(now), events);
    forall a | a in w.pending ensures a in w.open {
      assert At(w.claims, w.pending[a], Pending(a));
    }
    forall s, t | s in w.claims && t in w.claims && Numbered(w.claims[s].stage) && Numbered(w.claims[t].stage)
      ensures s == t
    {
      assert w.claims[s].stage.d in w.open && w.claims[t].stage.d in w.open;
    }
  }
}
