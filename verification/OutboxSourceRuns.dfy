/** The functions that specify the outbox source are runs of the model. */
module OutboxSourceRuns {
  import opened Options
  import opened RouteJob
  import opened OutboxModel
  import opened OutboxSource

  function Projected(w: World): Ledger {
    Ledger(w.store, w.pending, w.nextDelivery, w.log)
  }

  function After(cfg: Config, w: World, events: seq<Event>): World
    decreases |events|
  {
    if events == [] then w else After(cfg, Apply(cfg, w, events[0]), events[1..])
  }

  ghost predicate Allowed(cfg: Config, w: World, events: seq<Event>)
    decreases |events|
  {
    events != [] ==> Enabled(w, events[0]) && Allowed(cfg, Apply(cfg, w, events[0]), events[1..])
  }

  lemma {:induction false} First(cfg: Config, w: World, e: Event, rest: seq<Event>)
    requires Enabled(w, e) && Allowed(cfg, Apply(cfg, w, e), rest)
    ensures Allowed(cfg, w, [e] + rest) && After(cfg, w, [e] + rest) == After(cfg, Apply(cfg, w, e), rest)
  {
    assert ([e] + rest)[1..] == rest;
  }

  lemma {:induction false} AfterBoth(cfg: Config, w: World, a: seq<Event>, b: seq<Event>)
    requires Allowed(cfg, w, a) && Allowed(cfg, After(cfg, w, a), b)
    ensures Allowed(cfg, w, a + b) && After(cfg, w, a + b) == After(cfg, After(cfg, w, a), b)
    decreases |a|
  {
    if a == [] {
      assert a + b == b;
    } else {
      AfterBoth(cfg, Apply(cfg, w, a[0]), a[1..], b);
      assert (a + b)[1..] == a[1..] + b;
    }
  }

  lemma {:induction false} Two(cfg: Config, w: World, e: Event, next: Event)
    requires Enabled(w, e) && Enabled(Apply(cfg, w, e), next)
    ensures Allowed(cfg, w, [e, next]) && After(cfg, w, [e, next]) == Apply(cfg, Apply(cfg, w, e), next)
  {
    First(cfg, Apply(cfg, w, e), next, []);
    First(cfg, w, e, [next] + []);
    assert [e] + ([next] + []) == [e, next];
  }

  lemma {:induction false} One(cfg: Config, w: World, e: Event)
    requires Enabled(w, e)
    ensures Allowed(cfg, w, [e]) && After(cfg, w, [e]) == Apply(cfg, w, e)
  {
    First(cfg, w, e, []);
    assert [e] + [] == [e];
  }

  /** The two steps of the actor that settle a pending delivery whose renewal is over. */
  lemma SettleSteps(cfg: Config, w: World, failing: set<Held>)
    requires w.actor.Waiting? && w.actor.held.token !in w.renewals
    ensures var h, begun := w.actor.held, Apply(cfg, w, ByActor(RenewalOver));
            var ended := Apply(cfg, begun, ByActor(Returned(Carried(w.store, h, failing))));
            && Enabled(w, ByActor(RenewalOver)) && Enabled(begun, ByActor(Returned(Carried(w.store, h, failing))))
            && ended.actor.Ready? && ended.queue == w.queue
            && Projected(ended) == Projected(w).(
                 store := if Carried(w.store, h, failing)
                          then Settlement(w.store, h, w.actor.decision, w.now + cfg.retryDelay) else w.store,
                 calls := w.log + [Call(Settles(w.actor.d, w.actor.decision), h)])
  {
  }

  lemma SettledIsARun(cfg: Config, w: World, failing: set<Held>) returns (events: seq<Event>)
    requires w.actor.Waiting? && w.actor.held.token !in w.renewals
    ensures Allowed(cfg, w, events)
    ensures var h, ended := w.actor.held, After(cfg, w, events);
            && ended.actor.Ready? && ended.queue == w.queue
            && Projected(ended) == Projected(w).(
                 store := if Carried(w.store, h, failing)
                          then Settlement(w.store, h, w.actor.decision, w.now + cfg.retryDelay) else w.store,
                 calls := w.log + [Call(Settles(w.actor.d, w.actor.decision), h)])
  {
    var last := ByActor(Returned(Carried(w.store, w.actor.held, failing)));
    SettleSteps(cfg, w, failing);
    Two(cfg, w, ByActor(RenewalOver), last);
    events := [ByActor(RenewalOver), last];
  }

  /** Only the renewal tasks differ. */
  predicate SameButRenewals(w: World, v: World) {
    v == w.(renewals := v.renewals)
  }

  /** A renewal task that was told to stop ends, after the call it may be in; that call fails. */
  lemma RenewalEnds(cfg: Config, w: World, token: string) returns (events: seq<Event>)
    requires token in w.renewals ==> w.renewals[token].stop
    ensures Allowed(cfg, w, events)
    ensures SameButRenewals(w, After(cfg, w, events)) && token !in After(cfg, w, events).renewals
  {
    if token !in w.renewals {
      events := [];
    } else if w.renewals[token].call.None? {
      One(cfg, w, ByRenewal(End(token)));
      events := [ByRenewal(End(token))];
    } else {
      Two(cfg, w, ByRenewal(Done(token, false)), ByRenewal(End(token)));
      events := [ByRenewal(Done(token, false)), ByRenewal(End(token))];
    }
  }

  /** A settlement is the next command, whatever else is queued, and the lease may have a renewal
      task: settling it, as steps of the actor and of that task. */
  lemma SettleIsARun(cfg: Config, w: World, d: nat, decision: Decision, failing: set<Held>) returns (events: seq<Event>)
    requires w.actor.Ready? && w.queue != [] && w.queue[0] == Settle(d, decision)
    ensures Allowed(cfg, w, events)
    ensures Projected(After(cfg, w, events)) == AfterSettle(Projected(w), d, decision, w.now + cfg.retryDelay, failing).0
    ensures After(cfg, w, events).actor.Ready? && After(cfg, w, events).queue == w.queue[1..]
  {
    var taken := Apply(cfg, w, ByActor(Take));
    if d in w.pending {
      var stopping := RenewalEnds(cfg, taken, w.pending[d].token);
      var settling := SettledIsARun(cfg, After(cfg, taken, stopping), failing);
      AfterBoth(cfg, taken, stopping, settling);
      First(cfg, w, ByActor(Take), stopping + settling);
      events := [ByActor(Take)] + (stopping + settling);
    } else {
      One(cfg, w, ByActor(Take));
      events := [ByActor(Take)];
    }
  }

  lemma {:induction false} AllBackFirst(l: Ledger, excess: seq<Held>, at: nat, failing: set<Held>)
    requires excess != []
    ensures AllBack(l, excess, at, failing) == AllBack(Back(l, excess[0], at, failing), excess[1..], at, failing)
  {
    if |excess| > 1 {
      AllBackFirst(l, excess[..|excess| - 1], at, failing);
      assert excess[1..][..|excess| - 2] == excess[..|excess| - 1][1..];
    } else {
      assert excess[..0] == [];
    }
  }

  lemma GiveBackStep(cfg: Config, u: World, failing: set<Held>)
    requires u.claimer.Clearing? && u.claimer.excess != []
    ensures var h := u.claimer.excess[0];
            var e := ByClaimer(GiveBack(Carried(u.store, h, failing)));
            var v := Apply(cfg, u, e);
            && Enabled(u, e) && Projected(v) == Back(Projected(u), h, u.now + cfg.retryDelay, failing)
            && v.claimer == Clearing(u.claimer.first, u.claimer.excess[1..])
            && v.actor == u.actor && v.queue == u.queue && v.now == u.now
  {
  }

  lemma {:induction false} ExcessIsARun(cfg: Config, u: World, failing: set<Held>) returns (events: seq<Event>)
    requires u.claimer.Clearing?
    ensures Allowed(cfg, u, events)
    ensures var v := After(cfg, u, events);
            && v.claimer == Clearing(u.claimer.first, []) && v.actor == u.actor && v.queue == u.queue && v.now == u.now
            && Projected(v) == AllBack(Projected(u), u.claimer.excess, u.now + cfg.retryDelay, failing)
    decreases |u.claimer.excess|
  {
    if u.claimer.excess == [] {
      events := [];
    } else {
      var e := ByClaimer(GiveBack(Carried(u.store, u.claimer.excess[0], failing)));
      GiveBackStep(cfg, u, failing);
      AllBackFirst(Projected(u), u.claimer.excess, u.now + cfg.retryDelay, failing);
      var rest := ExcessIsARun(cfg, Apply(cfg, u, e), failing);
      First(cfg, u, e, rest);
      events := [e] + rest;
    }
  }

  lemma RegisterSteps(cfg: Config, v: World)
    requires v.claimer.Clearing? && v.claimer.excess == [] && v.actor.Ready? && v.queue == []
    ensures var u := Apply(cfg, v, ByClaimer(Submit));
            && Enabled(v, ByClaimer(Submit)) && Enabled(u, ByActor(Take))
            && Apply(cfg, u, ByActor(Take)).claimer == Registering(v.nextDelivery, v.claimer.first, true)
            && Projected(Apply(cfg, u, ByActor(Take)))
               == Projected(v).(pending := v.pending[v.nextDelivery := v.claimer.first], nextDelivery := v.nextDelivery + 1)
  {
  }

  /** Without an actor the registration fails, and the first record goes back as well. */
  lemma GiveUpSteps(cfg: Config, v: World, failing: set<Held>)
    requires v.claimer.Clearing? && v.claimer.excess == [] && v.actor.Stopped?
    ensures var h, u := v.claimer.first, Apply(cfg, v, ByClaimer(Submit));
            var last := ByClaimer(GiveUp(Carried(v.store, h, failing)));
            && Enabled(v, ByClaimer(Submit)) && Enabled(u, last)
            && Apply(cfg, u, last).claimer == Claimer.Ended
            && Projected(Apply(cfg, u, last))
               == Back(Projected(v).(nextDelivery := v.nextDelivery + 1), h, v.now + cfg.retryDelay, failing)
  {
  }

  /** The outcome of one claim that got something, from the records that came with it. */
  function Concluded(l: Ledger, first: Held, at: nat, registers: bool, failing: set<Held>): Ledger {
    if registers then l.(pending := l.pending[l.nextDelivery := first], nextDelivery := l.nextDelivery + 1)
    else Back(l.(nextDelivery := l.nextDelivery + 1), first, at, failing)
  }

  lemma LastIsARun(cfg: Config, v: World, registers: bool, failing: set<Held>) returns (events: seq<Event>)
    requires v.claimer.Clearing? && v.claimer.excess == []
    requires if registers then v.actor.Ready? && v.queue == [] else v.actor.Stopped?
    ensures Allowed(cfg, v, events)
    ensures Projected(After(cfg, v, events)) == Concluded(Projected(v), v.claimer.first, v.now + cfg.retryDelay, registers, failing)
    ensures After(cfg, v, events).claimer == if registers then Registering(v.nextDelivery, v.claimer.first, true) else Claimer.Ended
  {
    var last := if registers then ByActor(Take) else ByClaimer(GiveUp(Carried(v.store, v.claimer.first, failing)));
    if registers {
      RegisterSteps(cfg, v);
    } else {
      GiveUpSteps(cfg, v, failing);
    }
    Two(cfg, v, ByClaimer(Submit), last);
    events := [ByClaimer(Submit), last];
  }

  lemma ClearedIsARun(cfg: Config, u: World, registers: bool, failing: set<Held>) returns (events: seq<Event>)
    requires u.claimer.Clearing? && if registers then u.actor.Ready? && u.queue == [] else u.actor.Stopped?
    ensures Allowed(cfg, u, events)
    ensures var v, l := After(cfg, u, events), AllBack(Projected(u), u.claimer.excess, u.now + cfg.retryDelay, failing);
            && Projected(v) == Concluded(l, u.claimer.first, u.now + cfg.retryDelay, registers, failing)
            && v.claimer == if registers then Registering(l.nextDelivery, u.claimer.first, true) else Claimer.Ended
  {
    var back := ExcessIsARun(cfg, u, failing);
    var last := LastIsARun(cfg, After(cfg, u, back), registers, failing);
    AfterBoth(cfg, u, back, last);
    events := back + last;
  }

  lemma {:induction false} AnsweredStep(cfg: Config, w: World, got: seq<Held>)
    requires w.claimer == Claiming(w.now + cfg.lease) && got != [] && ClaimAllowed(w.store, w.now, got)
    ensures var v := Apply(cfg, w, ByClaimer(Answered(got)));
            && Enabled(w, ByClaimer(Answered(got))) && v.claimer == Clearing(got[0], got[1..])
            && v.actor == w.actor && v.queue == w.queue && v.now == w.now
            && Projected(v) == Projected(w).(store := Leased(w.store, got, w.now + cfg.lease))
  {
  }

  /** One claim that got something, up to the registered delivery or the end of the source. */
  lemma RoundIsARun(cfg: Config, s: Settings, w: World, got: seq<Held>, registers: bool, failing: set<Held>)
      returns (events: seq<Event>)
    requires s.lease == cfg.lease && s.retryDelay == cfg.retryDelay
    requires w.claimer == Claiming(w.now + cfg.lease) && got != [] && ClaimAllowed(w.store, w.now, got)
    requires if registers then w.actor.Ready? && w.queue == [] else w.actor.Stopped?
    ensures Allowed(cfg, w, events)
    ensures var (l, r) := Round(s, Projected(w), Answer(w.now, got), registers, failing);
            Projected(After(cfg, w, events)) == l && Matching(After(cfg, w, events).claimer, r)
  {
    var answered := Apply(cfg, w, ByClaimer(Answered(got)));
    AnsweredStep(cfg, w, got);
    RoundIsConcluded(s, Projected(w), Answer(w.now, got), registers, failing);
    var rest := ClearedIsARun(cfg, answered, registers, failing);
    First(cfg, w, ByClaimer(Answered(got)), rest);
    events := [ByClaimer(Answered(got))] + rest;
  }

  lemma {:induction false} RoundIsConcluded(s: Settings, l: Ledger, a: Answer, registers: bool, failing: set<Held>)
    requires a.got != []
    ensures var m := AllBack(l.(store := OutboxModel.Leased(l.store, a.got, a.now + s.lease)), a.got[1..], a.now + s.retryDelay, failing);
            && Round(s, l, a, registers, failing).0 == Concluded(m, a.got[0], a.now + s.retryDelay, registers, failing)
            && Round(s, l, a, registers, failing).1 == if registers then Yielded(m.nextDelivery, a.got[0]) else SourceEnded
  {
  }

  /** Where the model's claim loop is when the method has returned this. */
  predicate Matching(c: Claimer, r: Claimed) {
    match r
    case StillWaiting => c.Paused?
    case SourceEnded => c.Ended?
    case Yielded(d, h) => c == Registering(d, h, true)
  }

  lemma {:induction false} WaitIsARun(cfg: Config, w: World, n: nat) returns (events: seq<Event>)
    ensures Allowed(cfg, w, events) && After(cfg, w, events) == w.(now := w.now + n)
    decreases n
  {
    if n == 0 {
      events := [];
    } else {
      var rest := WaitIsARun(cfg, Apply(cfg, w, Outside(Tick)), n - 1);
      First(cfg, w, Outside(Tick), rest);
      events := [Outside(Tick)] + rest;
    }
  }

  /** Waiting out the poll interval and claiming again. */
  lemma WokenIsARun(cfg: Config, w: World, now: nat) returns (events: seq<Event>)
    requires w.claimer.Paused? && w.now <= now
    ensures Allowed(cfg, w, events) && After(cfg, w, events) == w.(now := now, claimer := Claiming(now + cfg.lease))
  {
    var waiting := WaitIsARun(cfg, w, now - w.now);
    One(cfg, After(cfg, w, waiting), ByClaimer(Wake));
    AfterBoth(cfg, w, waiting, [ByClaimer(Wake)]);
    events := waiting + [ByClaimer(Wake)];
  }

  /** Answers at later and later times, each of which the store may give as long as nothing is claimed. */
  ghost predicate Possible(store: Store, now: nat, answers: seq<Answer>)
    decreases |answers|
  {
    answers != [] ==>
      && now <= answers[0].now && ClaimAllowed(store, answers[0].now, answers[0].got)
      && Possible(store, answers[0].now, answers[1..])
  }

  lemma EmptyStep(cfg: Config, w: World)
    requires w.claimer.Claiming?
    ensures Enabled(w, ByClaimer(Answered([]))) && Apply(cfg, w, ByClaimer(Answered([]))) == w.(claimer := Paused)
  {
  }

  /** The claim loop over any answers, whether the delivery registers or not, is a run of the model:
      failed and empty claims, then one that got something, its excess, and its delivery or return. */
  lemma {:induction false} ClaimIsARun(cfg: Config, s: Settings, w: World, answers: seq<Answer>, registers: bool, failing: set<Held>)
      returns (events: seq<Event>)
    requires s.lease == cfg.lease && s.retryDelay == cfg.retryDelay
    requires w.claimer.Paused? && Possible(w.store, w.now, answers)
    requires if registers then w.actor.Ready? && w.queue == [] else w.actor.Stopped?
    ensures Allowed(cfg, w, events)
    ensures var (l, r) := Claims(s, Projected(w), answers, registers, failing);
            Projected(After(cfg, w, events)) == l && Matching(After(cfg, w, events).claimer, r)
    decreases |answers|
  {
    if answers == [] {
      events := [];
    } else {
      var a := answers[0];
      var waking := WokenIsARun(cfg, w, a.now);
      var woken := After(cfg, w, waking);
      var rest: seq<Event>;
      if a.got == [] {
        EmptyStep(cfg, woken);
        var more := ClaimIsARun(cfg, s, woken.(claimer := Paused), answers[1..], registers, failing);
        First(cfg, woken, ByClaimer(Answered([])), more);
        rest := [ByClaimer(Answered([]))] + more;
      } else {
        rest := RoundIsARun(cfg, s, woken, a.got, registers, failing);
      }
      AfterBoth(cfg, w, waking, rest);
      events := waking + rest;
    }
  }
}
