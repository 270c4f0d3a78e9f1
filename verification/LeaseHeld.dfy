/** A punctual run of the outbox source, seen from one lease, is a run of the lease clock; so the
    record of a held delivery stays leased to this source, and nobody else can claim it. */
module LeaseHeld {
  import opened Options
  import opened RouteJob
  import opened OutboxModel
  import opened OutboxSafety
  import opened OutboxTheorems
  import Clock = LeaseClock

  /** What an event means for the clock of lease `h`. */
  function Projected(w: World, e: Event, h: Held): seq<Clock.Event> {
    match e
    case Outside(o) => if o.Tick? then [Clock.Tick] else []
    case ByActor(a) => if a.Take? && w.queue != [] && w.queue[0].Register? && w.queue[0].held == h then [Clock.Registered] else []
    case ByRenewal(r) =>
      (match r
       case Begin(t) => if t == h.token then [Clock.CallBegins] else []
       case Done(t, _) => if t == h.token then [Clock.CallApplied, Clock.CallReturns] else []
       case End(t) => if t == h.token then [Clock.TaskEnds] else [])
    case ByClaimer(_) => []
  }

  /** The clock may take these events, one after the other. */
  predicate Punctual(t: Clock.Timing, c: Clock.Clock, events: seq<Clock.Event>)
    decreases |events|
  {
    events != [] ==> Clock.Enabled(t, c, events[0]) && Punctual(t, Clock.Apply(t, c, events[0]), events[1..])
  }

  function Ticked(t: Clock.Timing, c: Clock.Clock, events: seq<Clock.Event>): Clock.Clock
    decreases |events|
  {
    if events == [] then c else Ticked(t, Clock.Apply(t, c, events[0]), events[1..])
  }

  /** Renewals of `h` succeed, and a claim that is waited for gives out `h` first. */
  predicate Favourable(w: World, e: Event, h: Held) {
    && (e.ByRenewal? && e.r.Done? && e.r.token == h.token ==> e.r.applied)
    && (e.ByClaimer? && h.token !in w.claims ==> e.c.Answered? && e.c.got != [] && e.c.got[0] == h)
  }

  // ---------- the lease and its clock ----------

  predicate Leased(s: Store, h: Held, until: nat) {
    Holds(s, h) && s.rows[h.id].lease.value.until == until
  }

  predicate RenewalAt(r: Renewal, p: Clock.Phase, lease: nat) {
    match r.call
    case None => p.Sleeping?
    case Some(until) => p.Calling? && !p.applied && until == p.since + lease
  }

  /** The lease is being claimed, is on its way to the actor, has a renewal task, or had one. */
  predicate Tracks(t: Clock.Timing, w: World, h: Held, c: Clock.Clock) {
    && c.now == w.now
    && (if h.token !in w.claims then w.claimer == Claiming(c.until) && c.phase.Claiming?
        else w.claims[h.token].id == h.id && match w.claims[h.token].stage
          case Spent => true
          case Loose => c.phase.Claiming? && Leased(w.store, h, c.until)
          case Queued(_) => c.phase.Claiming? && Leased(w.store, h, c.until)
          case _ =>
            if h.token in w.renewals
            then RenewalAt(w.renewals[h.token], c.phase, t.lease) && Leased(w.store, h, c.until)
            else c.phase.Over?)
  }

  predicate Unspent(w: World, h: Held) {
    h.token in w.claims && !w.claims[h.token].stage.Spent?
  }

  /** Neither spent nor past its renewal task: the store has the lease with the clock's deadline. */
  predicate Covered(w: World, h: Held) {
    Unspent(w, h) && (w.claims[h.token].stage.Loose? || w.claims[h.token].stage.Queued? || h.token in w.renewals)
  }

  lemma CoveredIsLeased(t: Clock.Timing, w: World, h: Held, c: Clock.Clock)
    requires Tracks(t, w, h, c) && Covered(w, h) && RenewalsOk(w.renewals, w.claims)
    ensures Leased(w.store, h, c.until) && !c.phase.Over?
  {
  }

  /** Store calls about other leases leave this one alone. */
  lemma OtherRow(s: Store, h: Held, other: Held)
    requires Holds(s, h) && Holds(s, other) && other.token != h.token
    ensures other.id != h.id
  {
  }

  lemma {:induction false} NotClaimed(s: Store, now: nat, h: Held, until: nat, got: seq<Held>, deadline: nat)
    requires Leased(s, h, until) && now < until && ClaimAllowed(s, now, got)
    ensures Leased(OutboxModel.Leased(s, got, deadline), h, until)
  {
    forall i | 0 <= i < |got| ensures got[i].id != h.id {
      assert Claimable(s, now, got[i].id);
    }
    LeasedKeepsRows(s, got, deadline, h.id);
  }

  lemma {:induction false} ClaimedHere(s: Store, got: seq<Held>, until: nat, k: nat)
    requires k < |got| && forall i, j :: 0 <= i < j < |got| ==> got[i].id != got[j].id
    ensures Leased(OutboxModel.Leased(s, got, until), got[k], until)
  {
    if k < |got| - 1 {
      var front := got[..|got| - 1];
      ClaimedHere(s, front, until, k);
      assert front[k] == got[k];
    }
  }

  // ---------- the steps ----------

  predicate NotLapsed(w: World, h: Held, c: Clock.Clock) {
    Covered(w, h) ==> w.now < c.until
  }

  lemma TracksAnswered(t: Clock.Timing, w: World, h: Held, c: Clock.Clock, got: seq<Held>)
    requires Inv(w) && Tracks(t, w, h, c) && NotLapsed(w, h, c)
    requires w.claimer.Claiming? && ClaimAllowed(w.store, w.now, got)
    requires h.token !in w.claims ==> got != [] && got[0] == h
    ensures Tracks(t, ApplyAnswered(w, got, w.claimer.until), h, c)
  {
    if got != [] {
      ClaimExtends(w.store, w.now, w.claims, got);
      if h.token !in w.claims {
        ClaimedHere(w.store, got, w.claimer.until, 0);
        assert At(AllLoose(w.claims, got), got[0], Loose);
      } else if Covered(w, h) {
        CoveredIsLeased(t, w, h, c);
        NotClaimed(w.store, w.now, h, c.until, got, w.claimer.until);
      }
    }
  }

  lemma TracksGivenBack(cfg: Config, t: Clock.Timing, w: World, h: Held, c: Clock.Clock, back: Held, applied: bool, next: Claimer)
    requires Inv(w) && Tracks(t, w, h, c) && h.token in w.claims
    requires At(w.claims, back, Loose) && (applied ==> Holds(w.store, back))
    ensures Tracks(t, GivenBack(cfg, w, back, applied, next), h, c)
  {
    if back.token != h.token && Covered(w, h) {
      CoveredIsLeased(t, w, h, c);
      if applied {
        OtherRow(w.store, h, back);
      }
    }
  }

  lemma TracksClaimer(cfg: Config, t: Clock.Timing, w: World, h: Held, c: Clock.Clock, step: ClaimStep)
    requires Inv(w) && Tracks(t, w, h, c) && NotLapsed(w, h, c) && EnabledClaimer(w, step)
    requires Favourable(w, ByClaimer(step), h)
    ensures Tracks(t, ApplyClaimer(cfg, w, step), h, c)
  {
    match step {
      case Answered(got) => TracksAnswered(t, w, h, c, got);
      case GiveBack(applied) =>
        assert Hand(w.claimer)[1] == w.claimer.excess[0];
        TracksGivenBack(cfg, t, w, h, c, w.claimer.excess[0], applied, Clearing(w.claimer.first, w.claimer.excess[1..]));
      case Submit => assert Hand(w.claimer)[0] == w.claimer.first;
      case GiveUp(applied) =>
        assert Hand(w.claimer)[0] == w.claimer.failed;
        TracksGivenBack(cfg, t, w, h, c, w.claimer.failed, applied, Claimer.Ended);
      case _ =>
    }
  }

  lemma TracksRegister(cfg: Config, t: Clock.Timing, w: World, h: Held, c: Clock.Clock, d: nat, held: Held)
    requires Inv(w) && Tracks(t, w, h, c) && w.queue != [] && w.queue[0] == Register(d, held) && cfg.renews
    ensures Tracks(t, TakeRegister(cfg, w, d, held), h, if held == h then Clock.Apply(t, c, Clock.Registered) else c)
  {
    RegisteredQueue(w.claimer, w.queue, w.claims, d, held);
  }

  lemma TracksSettle(t: Clock.Timing, w: World, h: Held, c: Clock.Clock, d: nat, decision: Decision)
    requires Inv(w) && Tracks(t, w, h, c) && w.queue != []
    ensures Tracks(t, TakeSettle(w, d, decision), h, c)
  {
    if d in w.pending {
      assert At(w.claims, w.pending[d], Pending(d));
    }
  }

  lemma TracksReturned(t: Clock.Timing, w: World, h: Held, c: Clock.Clock, applied: bool)
    requires Inv(w) && Tracks(t, w, h, c) && EnabledActor(w, Returned(applied))
    ensures Tracks(t, ApplyReturned(w, applied), h, c)
  {
    if applied && Covered(w, h) {
      CoveredIsLeased(t, w, h, c);
      OtherRow(w.store, h, w.actor.held);
    }
  }

  lemma TracksStop(t: Clock.Timing, w: World, h: Held, c: Clock.Clock)
    requires Inv(w) && Tracks(t, w, h, c)
    ensures Tracks(t, ApplyStop(w), h, c)
  {
  }

  function Next(t: Clock.Timing, w: World, e: Event, h: Held, c: Clock.Clock): Clock.Clock {
    Ticked(t, c, Projected(w, e, h))
  }

  lemma NextOne(t: Clock.Timing, w: World, e: Event, h: Held, c: Clock.Clock, x: Clock.Event)
    requires Projected(w, e, h) == [x]
    ensures Next(t, w, e, h, c) == Clock.Apply(t, c, x)
  {
    var next := Clock.Apply(t, c, x);
    assert [x][1..] == [] && Ticked(t, next, []) == next;
    assert Ticked(t, c, [x]) == Ticked(t, next, [x][1..]);
  }

  lemma TracksActor(cfg: Config, t: Clock.Timing, w: World, h: Held, c: Clock.Clock, a: ActorStep)
    requires Inv(w) && Tracks(t, w, h, c) && EnabledActor(w, a) && cfg.renews
    ensures Tracks(t, ApplyActor(cfg, w, a), h, Next(t, w, ByActor(a), h, c))
  {
    match a {
      case Take =>
        match w.queue[0] {
          case Register(d, held) =>
            if held == h {
              NextOne(t, w, ByActor(a), h, c, Clock.Registered);
            }
            TracksRegister(cfg, t, w, h, c, d, held);
          case Settle(d, decision) => TracksSettle(t, w, h, c, d, decision);
        }
      case RenewalOver =>
      case Returned(applied) => TracksReturned(t, w, h, c, applied);
      case Stop => TracksStop(t, w, h, c);
    }
  }

  lemma TracksBegin(cfg: Config, t: Clock.Timing, w: World, h: Held, c: Clock.Clock, token: string)
    requires Inv(w) && Tracks(t, w, h, c) && EnabledRenewal(w, Begin(token)) && cfg.lease == t.lease
    ensures Tracks(t, ApplyBegin(cfg, w, token), h, if token == h.token then Clock.Apply(t, c, Clock.CallBegins) else c)
  {
    assert Known(w.claims, Held(w.renewals[token].id, token));
  }

  lemma TracksDone(t: Clock.Timing, w: World, h: Held, c: Clock.Clock, token: string, applied: bool)
    requires Inv(w) && Tracks(t, w, h, c) && EnabledRenewal(w, Done(token, applied)) && (token == h.token ==> applied)
    ensures Tracks(t, ApplyDone(w, token, applied), h,
                   if token == h.token then Clock.Apply(t, Clock.Apply(t, c, Clock.CallApplied), Clock.CallReturns) else c)
  {
    assert Known(w.claims, Held(w.renewals[token].id, token));
    if token != h.token && applied && Covered(w, h) {
      CoveredIsLeased(t, w, h, c);
      OtherRow(w.store, h, Held(w.renewals[token].id, token));
    }
  }

  lemma TracksRenewal(cfg: Config, t: Clock.Timing, w: World, h: Held, c: Clock.Clock, r: RenewalStep)
    requires Inv(w) && Tracks(t, w, h, c) && EnabledRenewal(w, r) && cfg.lease == t.lease && Favourable(w, ByRenewal(r), h)
    ensures Tracks(t, ApplyRenewal(cfg, w, r), h, Next(t, w, ByRenewal(r), h, c))
  {
    match r {
      case Begin(token) =>
        if token == h.token {
          NextOne(t, w, ByRenewal(r), h, c, Clock.CallBegins);
        }
        TracksBegin(cfg, t, w, h, c, token);
      case Done(token, applied) =>
        assert [Clock.CallApplied, Clock.CallReturns][1..] == [Clock.CallReturns] && [Clock.CallReturns][1..] == [];
        TracksDone(t, w, h, c, token, applied);
      case End(token) =>
        if token == h.token {
          NextOne(t, w, ByRenewal(r), h, c, Clock.TaskEnds);
          assert Known(w.claims, Held(w.renewals[token].id, token)) && Renewing(w.claims[token].stage);
        }
    }
  }

  lemma OthersLeaveLease(w: World, h: Held, until: nat, o: OutsideStep)
    requires Leased(w.store, h, until) && w.now < until && h.token in w.claims && EnabledOutside(w, o)
    ensures Leased(ApplyOutside(w, o).store, h, until)
  {
    match o {
      case OtherClaims(got, deadline) => NotClaimed(w.store, w.now, h, until, got, deadline);
      case OtherAcknowledges(held) => OtherRow(w.store, h, held);
      case OtherReleases(held, _) => OtherRow(w.store, h, held);
      case OtherRenews(held, _) => OtherRow(w.store, h, held);
      case _ =>
    }
  }

  lemma TracksOthers(t: Clock.Timing, w: World, h: Held, c: Clock.Clock, o: OutsideStep)
    requires Inv(w) && Tracks(t, w, h, c) && NotLapsed(w, h, c) && EnabledOutside(w, o)
    ensures Tracks(t, ApplyOutside(w, o), h, Next(t, w, Outside(o), h, c))
  {
    if o.Tick? {
      NextOne(t, w, Outside(o), h, c, Clock.Tick);
    }
    if Covered(w, h) {
      CoveredIsLeased(t, w, h, c);
      OthersLeaveLease(w, h, c.until, o);
    }
    OthersKeepLeases(w, o);
  }

  lemma TracksStep(cfg: Config, t: Clock.Timing, w: World, h: Held, c: Clock.Clock, e: Event)
    requires Inv(w) && Tracks(t, w, h, c) && NotLapsed(w, h, c) && Enabled(w, e) && Favourable(w, e, h)
    requires cfg.renews && cfg.lease == t.lease
    ensures Tracks(t, Apply(cfg, w, e), h, Next(t, w, e, h, c))
  {
    match e {
      case ByClaimer(step) => TracksClaimer(cfg, t, w, h, c, step);
      case ByActor(a) => TracksActor(cfg, t, w, h, c, a);
      case ByRenewal(r) => TracksRenewal(cfg, t, w, h, c, r);
      case Outside(o) => TracksOthers(t, w, h, c, o);
    }
  }

  // ---------- whole runs ----------

  /** The events of the clock of `h` in a run. */
  function ClockEvents(cfg: Config, w: World, events: seq<Event>, h: Held): seq<Clock.Event> {
    if events == [] then []
    else
      var front := events[..|events| - 1];
      ClockEvents(cfg, w, front, h) + Projected(Run(cfg, w, front), events[|events| - 1], h)
  }

  /** Renewals of `h` succeed throughout. */
  ghost predicate AllFavourable(cfg: Config, w: World, events: seq<Event>, h: Held) {
    events != [] ==>
      var front := events[..|events| - 1];
      AllFavourable(cfg, w, front, h) && Favourable(Run(cfg, w, front), events[|events| - 1], h)
  }

  lemma {:induction false} ClockConcat(t: Clock.Timing, c: Clock.Clock, a: seq<Clock.Event>, b: seq<Clock.Event>)
    ensures Clock.Run(t, c, a + b) == Ticked(t, Clock.Run(t, c, a), b)
    ensures Clock.Legal(t, c, a + b) <==> Clock.Legal(t, c, a) && Punctual(t, Clock.Run(t, c, a), b)
    decreases |b|
  {
    if b == [] {
      assert a + b == a;
    } else {
      var more := a + [b[0]];
      assert more[..|more| - 1] == a && a + b == more + b[1..];
      ClockConcat(t, c, more, b[1..]);
    }
  }

  /** The run of the lease, as the clock sees it. */
  lemma {:induction false} RunProjects(cfg: Config, t: Clock.Timing, w: World, events: seq<Event>, h: Held)
    requires cfg.renews && cfg.lease == t.lease && t.interval + 2 * t.delay < t.lease
    requires Inv(w) && w.claimer == Claiming(w.now + cfg.lease) && h.token !in w.claims
    requires Legal(cfg, w, events) && AllFavourable(cfg, w, events, h)
    requires Clock.Legal(t, Clock.Start(t, w.now), ClockEvents(cfg, w, events, h))
    ensures Inv(Run(cfg, w, events))
    ensures Tracks(t, Run(cfg, w, events), h, Clock.Run(t, Clock.Start(t, w.now), ClockEvents(cfg, w, events, h)))
  {
    if events != [] {
      var front, e := events[..|events| - 1], events[|events| - 1];
      var v, x := Run(cfg, w, front), Clock.Start(t, w.now);
      var before := ClockEvents(cfg, w, front, h);
      ClockConcat(t, x, before, Projected(v, e, h));
      RunProjects(cfg, t, w, front, h);
      InTime(t, w.now, v, before, h);
      TracksStep(cfg, t, v, h, Clock.Run(t, x, before), e);
      StepKeeps(cfg, v, e);
    }
  }

  lemma {:induction false} InTime(t: Clock.Timing, now: nat, v: World, events: seq<Clock.Event>, h: Held)
    requires t.interval + 2 * t.delay < t.lease && Clock.Legal(t, Clock.Start(t, now), events)
    requires Inv(v) && Tracks(t, v, h, Clock.Run(t, Clock.Start(t, now), events))
    ensures NotLapsed(v, h, Clock.Run(t, Clock.Start(t, now), events))
  {
    Clock.StaysOnTime(t, now, events);
    var c := Clock.Run(t, Clock.Start(t, now), events);
    assert !Clock.Lapsed(c);
    if Covered(v, h) {
      CoveredIsLeased(t, v, h, c);
    }
  }

  /** From its claim on, as long as the lease is on its way to the actor or has its renewal task, the
      record stays leased to this source with a deadline ahead, so that no consumer can claim it: in
      every run in which timers are punctual, renewals succeed, and the claim up to its registration
      and each renewal call take at most `delay`, with interval + 2 * delay < lease. */
  lemma {:induction false} HeldStaysLeased(cfg: Config, t: Clock.Timing, w: World, events: seq<Event>, h: Held)
    requires cfg.renews && cfg.lease == t.lease && t.interval + 2 * t.delay < t.lease
    requires Inv(w) && w.claimer == Claiming(w.now + cfg.lease) && h.token !in w.claims
    requires Legal(cfg, w, events) && AllFavourable(cfg, w, events, h)
    requires Clock.Legal(t, Clock.Start(t, w.now), ClockEvents(cfg, w, events, h))
    ensures var v := Run(cfg, w, events);
            Covered(v, h) ==>
              && Holds(v.store, h) && v.store.rows[h.id].lease.value.until > v.now
              && !Claimable(v.store, v.now, h.id)
  {
    RunProjects(cfg, t, w, events, h);
    InTime(t, w.now, Run(cfg, w, events), ClockEvents(cfg, w, events, h), h);
    if Covered(Run(cfg, w, events), h) {
      CoveredIsLeased(t, Run(cfg, w, events), h, Clock.Run(t, Clock.Start(t, w.now), ClockEvents(cfg, w, events, h)));
    }
  }
}
