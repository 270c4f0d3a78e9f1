/** The outbox source never stalls: whatever it is in the middle of, it can go on; and what its actor
    leaves behind when it ends. */
module OutboxProgress {
  import opened Options
  import opened RouteJob
  import opened OutboxModel
  import opened OutboxSafety

  /** A lease that waits for its renewal task has told it to stop; an actor that ended has forgotten
      its deliveries and told every renewal task. */
  ghost predicate ToldOk(w: World) {
    && (w.actor.Waiting? && w.actor.held.token in w.renewals ==> w.renewals[w.actor.held.token].stop)
    && (w.actor.Stopped? ==> w.queue == [] && w.pending == map[] && forall t :: t in w.renewals ==> w.renewals[t].stop)
  }

  lemma ToldByClaimer(cfg: Config, w: World, c: ClaimStep)
    requires ToldOk(w) && EnabledClaimer(w, c)
    ensures ToldOk(ApplyClaimer(cfg, w, c))
  {
  }

  lemma ToldByActor(cfg: Config, w: World, a: ActorStep)
    requires ToldOk(w) && EnabledActor(w, a)
    ensures ToldOk(ApplyActor(cfg, w, a))
  {
  }

  lemma ToldByRenewal(cfg: Config, w: World, r: RenewalStep)
    requires ToldOk(w) && EnabledRenewal(w, r)
    ensures ToldOk(ApplyRenewal(cfg, w, r))
  {
  }

  lemma ToldByOthers(w: World, o: OutsideStep)
    requires ToldOk(w)
    ensures ToldOk(ApplyOutside(w, o))
  {
  }

  lemma ToldStep(cfg: Config, w: World, e: Event)
    requires ToldOk(w) && Enabled(w, e)
    ensures ToldOk(Apply(cfg, w, e))
  {
    match e {
      case ByClaimer(c) => ToldByClaimer(cfg, w, c);
      case ByActor(a) => ToldByActor(cfg, w, a);
      case ByRenewal(r) => ToldByRenewal(cfg, w, r);
      case Outside(o) => ToldByOthers(w, o);
    }
  }

  /** In every run: once the settlement actor has ended nothing is queued or pending, and every
      renewal task that is left has been told to stop. */
  lemma {:induction false} StopTellsEverybody(cfg: Config, now: nat, events: seq<Event>)
    requires Legal(cfg, Start(now), events)
    ensures ToldOk(Run(cfg, Start(now), events))
  {
    if events != [] {
      StopTellsEverybody(cfg, now, events[..|events| - 1]);
      ToldStep(cfg, Run(cfg, Start(now), events[..|events| - 1]), events[|events| - 1]);
    }
  }

  /** The source is in the middle of a claim or a settlement, or has commands to handle. */
  predicate Unfinished(w: World) {
    || !(w.claimer.Idle? || w.claimer.Ended?)
    || w.queue != [] || w.actor.Waiting? || w.actor.Calling?
  }

  /** A step of the claim loop, the settlement actor or a renewal task, other than the actor ending. */
  predicate Own(e: Event) {
    (e.ByClaimer? && !e.c.Poll?) || (e.ByActor? && !e.a.Stop?) || e.ByRenewal?
  }

  ghost predicate CanGoOn(w: World) {
    exists e :: Own(e) && Enabled(w, e)
  }

  lemma GoesOn(w: World, e: Event)
    requires Own(e) && Enabled(w, e)
    ensures CanGoOn(w)
  {
  }

  lemma ActorGoesOn(w: World)
    requires ToldOk(w) && (w.queue != [] || w.actor.Waiting? || w.actor.Calling?)
    ensures CanGoOn(w)
  {
    match w.actor {
      case Ready => GoesOn(w, ByActor(Take));
      case Calling(_, _, _, _) => GoesOn(w, ByActor(Returned(false)));
      case Waiting(_, h, _) =>
        if h.token !in w.renewals {
          GoesOn(w, ByActor(RenewalOver));
        } else if w.renewals[h.token].call.Some? {
          GoesOn(w, ByRenewal(Done(h.token, false)));
        } else {
          GoesOn(w, ByRenewal(End(h.token)));
        }
      case Stopped => assert false;
    }
  }

  lemma ClaimerGoesOn(w: World)
    requires Inv(w) && ToldOk(w) && !(w.claimer.Idle? || w.claimer.Ended?)
    ensures CanGoOn(w)
  {
    match w.claimer {
      case Paused => GoesOn(w, ByClaimer(Wake));
      case Claiming(_) => GoesOn(w, ByClaimer(NoAnswer));
      case Clearing(_, excess) => GoesOn(w, ByClaimer(if excess == [] then Submit else GiveBack(false)));
      case Registering(_, _, confirmed) =>
        if confirmed {
          GoesOn(w, ByClaimer(Yield));
        } else {
          ActorGoesOn(w);
        }
      case Failing(_) => GoesOn(w, ByClaimer(GiveUp(false)));
    }
  }

  /** In every run, whatever the store answers or fails to do: as long as the source is in the middle
      of something, some task of its own can take a step. */
  lemma {:induction false} SourceNeverStalls(cfg: Config, now: nat, events: seq<Event>)
    requires Legal(cfg, Start(now), events) && Unfinished(Run(cfg, Start(now), events))
    ensures CanGoOn(Run(cfg, Start(now), events))
  {
    var w := Run(cfg, Start(now), events);
    RunKeeps(cfg, now, events);
    StopTellsEverybody(cfg, now, events);
    if w.claimer.Idle? || w.claimer.Ended? {
      ActorGoesOn(w);
    } else {
      ClaimerGoesOn(w);
    }
  }

  // ---------- renewal ----------

  /** With renewal every pending delivery has a renewal task that was not told to stop; without it
      there is no renewal task and no renewal is ever sent. */
  ghost predicate RenewedOk(cfg: Config, w: World) {
    if cfg.renews
    then forall d :: d in w.pending ==> w.pending[d].token in w.renewals && !w.renewals[w.pending[d].token].stop
    else w.renewals == map[] && forall i :: 0 <= i < |w.log| ==> !w.log[i].kind.Renews?
  }

  lemma RenewedByRegister(cfg: Config, w: World, d: nat, h: Held)
    requires RenewedOk(cfg, w) && w.queue != []
    ensures RenewedOk(cfg, TakeRegister(cfg, w, d, h))
  {
  }

  lemma RenewedBySettle(cfg: Config, w: World, d: nat, decision: Decision)
    requires RenewedOk(cfg, w) && PendingOk(w.pending, w.actor, w.claims) && w.queue != []
    ensures RenewedOk(cfg, TakeSettle(w, d, decision))
  {
    if d in w.pending {
      forall x | x in w.pending && x != d ensures w.pending[x].token != w.pending[d].token {
        assert At(w.claims, w.pending[x], Pending(x)) && At(w.claims, w.pending[d], Pending(d));
      }
    }
  }

  lemma RenewedByActor(cfg: Config, w: World, a: ActorStep)
    requires RenewedOk(cfg, w) && PendingOk(w.pending, w.actor, w.claims) && EnabledActor(w, a)
    ensures RenewedOk(cfg, ApplyActor(cfg, w, a))
  {
    if a.Take? {
      match w.queue[0] {
        case Register(d, h) => RenewedByRegister(cfg, w, d, h);
        case Settle(d, decision) => RenewedBySettle(cfg, w, d, decision);
      }
    }
  }

  lemma RenewedByOthers(cfg: Config, w: World, o: OutsideStep)
    requires RenewedOk(cfg, w)
    ensures RenewedOk(cfg, ApplyOutside(w, o))
  {
  }

  lemma RenewedByRenewal(cfg: Config, w: World, r: RenewalStep)
    requires RenewedOk(cfg, w) && EnabledRenewal(w, r)
    ensures RenewedOk(cfg, ApplyRenewal(cfg, w, r))
  {
  }

  lemma RenewedByClaimer(cfg: Config, w: World, c: ClaimStep)
    requires RenewedOk(cfg, w) && EnabledClaimer(w, c)
    ensures RenewedOk(cfg, ApplyClaimer(cfg, w, c))
  {
  }

  lemma RenewedStep(cfg: Config, w: World, e: Event)
    requires RenewedOk(cfg, w) && Inv(w) && Enabled(w, e)
    ensures RenewedOk(cfg, Apply(cfg, w, e))
  {
    match e {
      case ByClaimer(c) => RenewedByClaimer(cfg, w, c);
      case ByActor(a) => RenewedByActor(cfg, w, a);
      case ByRenewal(r) => RenewedByRenewal(cfg, w, r);
      case Outside(o) => RenewedByOthers(cfg, w, o);
    }
  }

  /** In every run: with renewal configured each pending delivery has its renewal task, which only its
      settlement or the end of the actor tells to stop; otherwise no lease is ever renewed. */
  lemma {:induction false} RenewedWhilePending(cfg: Config, now: nat, events: seq<Event>)
    requires Legal(cfg, Start(now), events)
    ensures RenewedOk(cfg, Run(cfg, Start(now), events))
  {
    if events != [] {
      var front := events[..|events| - 1];
      RenewedWhilePending(cfg, now, front);
      RunKeeps(cfg, now, front);
      RenewedStep(cfg, Run(cfg, Start(now), front), events[|events| - 1]);
    }
  }

  // ---------- what the events say ----------

  function Submitted(events: seq<Event>): nat {
    if events == [] then 0
    else Submitted(events[..|events| - 1]) + if events[|events| - 1] == ByClaimer(Submit) then 1 else 0
  }

  function Ticks(events: seq<Event>): nat {
    if events == [] then 0
    else Ticks(events[..|events| - 1]) + if events[|events| - 1] == Outside(Tick) then 1 else 0
  }

  predicate Asks(e: Event) {
    e == ByClaimer(Poll) || e == ByClaimer(Wake)
  }

  /** The time at which the store was last asked for records. */
  function AskedAt(now: nat, events: seq<Event>): nat {
    if events == [] then now
    else if Asks(events[|events| - 1]) then now + Ticks(events)
    else AskedAt(now, events[..|events| - 1])
  }

  /** The clock, the next delivery number, and the deadline of a claim under way. */
  ghost predicate CountsOk(cfg: Config, now: nat, events: seq<Event>, w: World) {
    && w.now == now + Ticks(events)
    && w.nextDelivery == 1 + Submitted(events)
    && (forall d :: d in w.delivered ==> 1 <= d <= Submitted(events))
    && (w.claimer.Claiming? ==> w.claimer.until == AskedAt(now, events) + cfg.lease)
  }

  lemma CountsByClaimer(cfg: Config, now: nat, events: seq<Event>, w: World, c: ClaimStep)
    requires events != [] && events[|events| - 1] == ByClaimer(c) && EnabledClaimer(w, c)
    requires CountsOk(cfg, now, events[..|events| - 1], w)
    ensures CountsOk(cfg, now, events, ApplyClaimer(cfg, w, c))
  {
  }

  predicate SameCounts(w: World, v: World) {
    && v.nextDelivery == w.nextDelivery && v.delivered == w.delivered
    && (v.claimer.Claiming? ==> v.claimer == w.claimer)
  }

  lemma ActorCountsNothing(cfg: Config, w: World, a: ActorStep)
    ensures SameCounts(w, ApplyActor(cfg, w, a)) && ApplyActor(cfg, w, a).now == w.now
  {
  }

  lemma RenewalsCountNothing(cfg: Config, w: World, r: RenewalStep)
    ensures SameCounts(w, ApplyRenewal(cfg, w, r)) && ApplyRenewal(cfg, w, r).now == w.now
  {
  }

  lemma OthersCountTime(w: World, o: OutsideStep)
    ensures SameCounts(w, ApplyOutside(w, o)) && ApplyOutside(w, o).now == w.now + if o.Tick? then 1 else 0
  {
  }

  lemma CountsByOthers(cfg: Config, now: nat, events: seq<Event>, w: World, v: World)
    requires events != [] && !events[|events| - 1].ByClaimer? && SameCounts(w, v)
    requires v.now == w.now + if events[|events| - 1] == Outside(Tick) then 1 else 0
    requires CountsOk(cfg, now, events[..|events| - 1], w)
    ensures CountsOk(cfg, now, events, v)
  {
  }

  lemma CountsStep(cfg: Config, now: nat, events: seq<Event>, w: World)
    requires events != [] && Enabled(w, events[|events| - 1]) && CountsOk(cfg, now, events[..|events| - 1], w)
    ensures CountsOk(cfg, now, events, Apply(cfg, w, events[|events| - 1]))
  {
    match events[|events| - 1] {
      case ByClaimer(c) => CountsByClaimer(cfg, now, events, w, c);
      case ByActor(a) =>
        ActorCountsNothing(cfg, w, a);
        CountsByOthers(cfg, now, events, w, ApplyActor(cfg, w, a));
      case ByRenewal(r) =>
        RenewalsCountNothing(cfg, w, r);
        CountsByOthers(cfg, now, events, w, ApplyRenewal(cfg, w, r));
      case Outside(o) =>
        OthersCountTime(w, o);
        CountsByOthers(cfg, now, events, w, ApplyOutside(w, o));
    }
  }

  /** In every run deliveries are numbered 1, 2 and so on in the order in which they are submitted,
      and a claim asks for leases that end the lease duration after the store was asked. */
  lemma {:induction false} NumbersAndDeadlines(cfg: Config, now: nat, events: seq<Event>)
    requires Legal(cfg, Start(now), events)
    ensures CountsOk(cfg, now, events, Run(cfg, Start(now), events))
  {
    if events != [] {
      var front := events[..|events| - 1];
      NumbersAndDeadlines(cfg, now, front);
      CountsStep(cfg, now, events, Run(cfg, Start(now), front));
    }
  }
}
