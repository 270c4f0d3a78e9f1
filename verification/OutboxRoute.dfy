/** A route without a partitioner on a leased outbox source: the loop takes a message, processes it,
    settles it, waits for the answer, and only then polls for the next one. */
module OutboxRoute {
  import opened Options
  import opened RouteJob
  import opened OutboxModel
  import opened OutboxSafety
  import opened OutboxTheorems

  /** Where the loop is: about to poll, waiting for the stream, processing a delivery, or waiting for
      the answer to its settlement. */
  datatype Loop = Resting | Taking | Processing(d: nat) | Awaiting(d: nat)

  /** The route and what becomes of the deliveries it processes. */
  datatype Job = Job(binding: Binding, outcomes: nat -> Outcome)

  /** The settlement that processing delivery `d` ends with. */
  predicate Decides(j: Job, d: nat, decision: Decision) {
    var script := Script(j.binding, j.outcomes(d));
    script != [] && script[|script| - 1] == Settled(decision)
  }

  /** The loop polls when it rests, and settles the delivery it processes as processing it says.
      Nobody else settles anything. */
  predicate ByLoop(j: Job, p: Loop, e: Event) {
    match e
    case ByClaimer(Poll) => p.Resting?
    case Outside(Ask(d, decision)) => p == Processing(d) && Decides(j, d, decision)
    case _ => true
  }

  /** The settlement is answered when its store call returns, and fails when the actor is gone. */
  function LoopNext(w: World, p: Loop, e: Event): Loop {
    match e
    case ByClaimer(Poll) => Taking
    case ByClaimer(Yield) => if w.claimer.Registering? then Processing(w.claimer.d) else p
    case Outside(Ask(d, _)) => if w.actor.Stopped? then Resting else Awaiting(d)
    case ByActor(Returned(_)) => if p.Awaiting? then Resting else p
    case ByActor(Stop) => if p.Awaiting? then Resting else p
    case _ => p
  }

  function LoopAfter(cfg: Config, w: World, events: seq<Event>): Loop {
    if events == [] then Resting
    else
      var front := events[..|events| - 1];
      LoopNext(Run(cfg, w, front), LoopAfter(cfg, w, front), events[|events| - 1])
  }

  ghost predicate LoopRun(cfg: Config, j: Job, w: World, events: seq<Event>) {
    events != [] ==>
      var front := events[..|events| - 1];
      LoopRun(cfg, j, w, front) && ByLoop(j, LoopAfter(cfg, w, front), events[|events| - 1])
  }

  // ---------- the invariant ----------

  predicate Quiet(w: World) {
    w.queue == [] && w.actor.Ready?
  }

  /** What the loop's place tells about queue, actor and deliveries while the actor lives. */
  predicate Shape(w: World, p: Loop) {
    match p
    case Resting => w.claimer.Idle? && Quiet(w) && w.open == {}
    case Taking =>
      (match w.claimer
       case Registering(d, h, false) => w.queue == [Register(d, h)] && w.actor.Ready? && w.open == {d}
       case Registering(d, h, true) => Quiet(w) && w.open == {d} && d in w.pending
       case Idle => false
       case Failing(_) => false
       case Ended => false
       case _ => Quiet(w) && w.open == {})
    case Processing(d) => w.claimer.Idle? && Quiet(w) && w.open == {d} && d in w.pending
    case Awaiting(d) =>
      && w.claimer.Idle? && w.open == {d}
      && match w.actor
         case Ready => d in w.pending && |w.queue| == 1 && w.queue[0].Settle? && w.queue[0].d == d
         case Waiting(x, _, _) => w.queue == [] && x == d
         case Calling(x, _, _, _) => w.queue == [] && x == d
         case Stopped => false
  }

  predicate LoopInv(w: World, p: Loop) {
    !w.actor.Stopped? ==> Shape(w, p)
  }

  lemma LoopClaimer(cfg: Config, w: World, p: Loop, c: ClaimStep)
    requires Inv(w) && LoopInv(w, p) && EnabledClaimer(w, c) && (c.Poll? ==> p.Resting?)
    ensures LoopInv(ApplyClaimer(cfg, w, c), LoopNext(w, p, ByClaimer(c)))
  {
    match c {
      case Submit => assert [] + [Register(w.nextDelivery, w.claimer.first)] == [Register(w.nextDelivery, w.claimer.first)];
      case _ =>
    }
  }

  lemma LoopRegister(cfg: Config, w: World, p: Loop, d: nat, h: Held)
    requires Inv(w) && LoopInv(w, p) && w.actor.Ready? && w.queue != [] && w.queue[0] == Register(d, h)
    ensures LoopInv(TakeRegister(cfg, w, d, h), p)
  {
    RegisteredQueue(w.claimer, w.queue, w.claims, d, h);
  }

  lemma LoopSettle(w: World, p: Loop, d: nat, decision: Decision)
    requires Inv(w) && LoopInv(w, p) && w.actor.Ready? && w.queue != [] && w.queue[0] == Settle(d, decision)
    ensures LoopInv(TakeSettle(w, d, decision), p)
  {
    assert p == Awaiting(d) && d in w.pending;
    assert At(w.claims, w.pending[d], Pending(d));
  }

  lemma LoopReturned(w: World, p: Loop, applied: bool)
    requires LoopInv(w, p) && w.actor.Calling?
    ensures LoopInv(ApplyReturned(w, applied), if p.Awaiting? then Resting else p)
  {
  }

  lemma LoopTake(cfg: Config, w: World, p: Loop)
    requires Inv(w) && LoopInv(w, p) && w.actor.Ready? && w.queue != []
    ensures LoopInv(ApplyActor(cfg, w, Take), p)
  {
    match w.queue[0] {
      case Register(d, h) => LoopRegister(cfg, w, p, d, h);
      case Settle(d, decision) => LoopSettle(w, p, d, decision);
    }
  }

  lemma LoopActor(cfg: Config, w: World, p: Loop, a: ActorStep)
    requires Inv(w) && LoopInv(w, p) && EnabledActor(w, a)
    ensures LoopInv(ApplyActor(cfg, w, a), LoopNext(w, p, ByActor(a)))
  {
    match a {
      case Take => LoopTake(cfg, w, p);
      case RenewalOver =>
      case Returned(applied) => LoopReturned(w, p, applied);
      case Stop =>
    }
  }

  /** Nothing the loop knows of changes. */
  predicate SameForLoop(w: World, v: World) {
    SameLeases(w, v) && v.queue == w.queue && v.pending == w.pending
  }

  lemma LoopSame(w: World, v: World, p: Loop)
    requires LoopInv(w, p) && SameForLoop(w, v)
    ensures LoopInv(v, p)
  {
  }

  lemma RenewalsSame(cfg: Config, w: World, r: RenewalStep)
    ensures SameForLoop(w, ApplyRenewal(cfg, w, r))
  {
  }

  lemma OthersSame(w: World, o: OutsideStep)
    requires !o.Ask?
    ensures SameForLoop(w, ApplyOutside(w, o))
  {
  }

  lemma LoopAsk(w: World, p: Loop, d: nat, decision: Decision)
    requires LoopInv(w, p) && p == Processing(d)
    ensures LoopInv(ApplyAsk(w, d, decision), if w.actor.Stopped? then Resting else Awaiting(d))
  {
    assert [] + [Settle(d, decision)] == [Settle(d, decision)];
  }

  lemma LoopStep(cfg: Config, j: Job, w: World, p: Loop, e: Event)
    requires Inv(w) && LoopInv(w, p) && Enabled(w, e) && ByLoop(j, p, e)
    ensures LoopInv(Apply(cfg, w, e), LoopNext(w, p, e))
  {
    match e {
      case ByClaimer(c) => LoopClaimer(cfg, w, p, c);
      case ByActor(a) => LoopActor(cfg, w, p, a);
      case ByRenewal(r) =>
        RenewalsSame(cfg, w, r);
        LoopSame(w, ApplyRenewal(cfg, w, r), p);
      case Outside(o) =>
        if o.Ask? {
          LoopAsk(w, p, o.d, o.decision);
        } else {
          OthersSame(w, o);
          LoopSame(w, ApplyOutside(w, o), p);
        }
    }
  }

  lemma {:induction false} LoopKeeps(cfg: Config, j: Job, now: nat, events: seq<Event>)
    requires Legal(cfg, Start(now), events) && LoopRun(cfg, j, Start(now), events)
    ensures LoopInv(Run(cfg, Start(now), events), LoopAfter(cfg, Start(now), events))
  {
    if events != [] {
      var front := events[..|events| - 1];
      LoopKeeps(cfg, j, now, front);
      RunKeeps(cfg, now, front);
      LoopStep(cfg, j, Run(cfg, Start(now), front), LoopAfter(cfg, Start(now), front), events[|events| - 1]);
    }
  }

  // ---------- whole runs ----------

  /** The loop never polls before the settlement it waits for is answered. */
  lemma {:induction false} LoopIsOneAtATime(cfg: Config, j: Job, now: nat, events: seq<Event>)
    requires Legal(cfg, Start(now), events) && LoopRun(cfg, j, Start(now), events)
    ensures OneAtATime(cfg, Start(now), events)
  {
    if events != [] {
      var front := events[..|events| - 1];
      LoopIsOneAtATime(cfg, j, now, front);
      LoopKeeps(cfg, j, now, front);
    }
  }

  /** An outbox route never has more than one lease registered, pending or being settled. */
  lemma {:induction false} RouteHoldsOneLease(cfg: Config, j: Job, now: nat, events: seq<Event>)
    requires Legal(cfg, Start(now), events) && LoopRun(cfg, j, Start(now), events)
    ensures var w := Run(cfg, Start(now), events);
            && (forall a, b :: a in w.pending && b in w.pending ==> a == b)
            && (forall s, t :: s in w.claims && t in w.claims && Numbered(w.claims[s].stage) && Numbered(w.claims[t].stage)
                  ==> s == t)
  {
    LoopIsOneAtATime(cfg, j, now, events);
    AtMostOnePending(cfg, now, events);
  }

  /** The loop asks for nothing but what processing the deliveries says. */
  lemma {:induction false} AskedByLoop(cfg: Config, j: Job, w: World, events: seq<Event>)
    requires LoopRun(cfg, j, w, events) && forall x :: x in w.asked ==> Decides(j, x.0, x.1)
    ensures forall x :: x in Run(cfg, w, events).asked ==> Decides(j, x.0, x.1)
  {
    if events != [] {
      var front, e := events[..|events| - 1], events[|events| - 1];
      AskedByLoop(cfg, j, w, front);
      AskedGrows(cfg, Run(cfg, w, front), e);
    }
  }

  lemma ClaimerAsksNothing(cfg: Config, w: World, c: ClaimStep)
    ensures ApplyClaimer(cfg, w, c).asked == w.asked
  {
  }

  lemma ActorAsksNothing(cfg: Config, w: World, a: ActorStep)
    ensures ApplyActor(cfg, w, a).asked == w.asked
  {
  }

  lemma AskedGrows(cfg: Config, w: World, e: Event)
    ensures Apply(cfg, w, e).asked == w.asked + if e.Outside? && e.o.Ask? then {(e.o.d, e.o.decision)} else {}
  {
    match e {
      case ByClaimer(c) => ClaimerAsksNothing(cfg, w, c);
      case ByActor(a) => ActorAsksNothing(cfg, w, a);
      case ByRenewal(r) =>
      case Outside(o) =>
    }
  }

  /** Each settlement of an outbox route is that of its delivery: `Ack` exactly if the handler
      succeeded and any success target took the output, and otherwise the configured decision. */
  lemma {:induction false} RouteSettlesAsItProcessed(cfg: Config, j: Job, now: nat, events: seq<Event>, c: Call)
    requires Legal(cfg, Start(now), events) && LoopRun(cfg, j, Start(now), events)
    requires c in Run(cfg, Start(now), events).log && c.kind.Settles?
    ensures c.kind.decision == if Succeeds(j.binding, j.outcomes(c.kind.d)) then Ack else j.binding.onFailure
  {
    SettlesWhatWasDelivered(cfg, now, events, c);
    AskedByLoop(cfg, j, Start(now), events);
    assert Decides(j, c.kind.d, c.kind.decision);
    SettlementDiscipline(j.binding, j.outcomes(c.kind.d));
  }
}
