/** The timing of one leased delivery: claim, registration, and the renewal task, on a clock. */
module LeaseClock {
  /** The lease duration, the renewal interval, and the most that the claim up to its registration,
      or one renewal call, may take. */
  datatype Timing = Timing(lease: nat, interval: nat, delay: nat)

  datatype Phase =
    | Claiming(since: nat)
    | Sleeping(since: nat)
    | Calling(since: nat, applied: bool)
    | Over

  /** The time, the deadline of the lease in the store, and where the renewal task is. */
  datatype Clock = Clock(now: nat, until: nat, phase: Phase)

  datatype Event = Tick | Registered | CallBegins | CallApplied | CallReturns | TaskEnds

  /** The claim is made: its deadline is computed before the store is asked. */
  function Start(t: Timing, now: nat): Clock {
    Clock(now, now + t.lease, Claiming(now))
  }

  /** Timers are punctual, calls take at most `delay`, and renewal only ends between calls. */
  predicate Enabled(t: Timing, c: Clock, e: Event) {
    match e
    case Tick =>
      (match c.phase
       case Claiming(since) => c.now < since + t.delay
       case Sleeping(since) => c.now < since + t.interval
       case Calling(since, _) => c.now < since + t.delay
       case Over => true)
    case Registered => c.phase.Claiming?
    case CallBegins => c.phase.Sleeping? && c.now == c.phase.since + t.interval
    case CallApplied => c.phase.Calling? && !c.phase.applied
    case CallReturns => c.phase.Calling? && c.phase.applied
    case TaskEnds => c.phase.Sleeping?
  }

  /** A renewal sets the deadline that was computed when its call began. */
  function Apply(t: Timing, c: Clock, e: Event): Clock {
    match e
    case Tick => c.(now := c.now + 1)
    case Registered => c.(phase := Sleeping(c.now))
    case CallBegins => c.(phase := Calling(c.now, false))
    case CallApplied => if c.phase.Calling? then Clock(c.now, c.phase.since + t.lease, Calling(c.phase.since, true)) else c
    case CallReturns => c.(phase := Sleeping(c.now))
    case TaskEnds => c.(phase := Over)
  }

  function Run(t: Timing, c: Clock, events: seq<Event>): Clock {
    if events == [] then c else Apply(t, Run(t, c, events[..|events| - 1]), events[|events| - 1])
  }

  predicate Legal(t: Timing, c: Clock, events: seq<Event>) {
    events != [] ==>
      && Legal(t, c, events[..|events| - 1])
      && Enabled(t, Run(t, c, events[..|events| - 1]), events[|events| - 1])
  }

  /** Another consumer could claim the record although its delivery is still held. */
  predicate Lapsed(c: Clock) {
    !c.phase.Over? && c.until <= c.now
  }

  predicate OnTime(t: Timing, c: Clock) {
    match c.phase
    case Claiming(since) => c.until == since + t.lease && c.now <= since + t.delay
    case Sleeping(since) => c.until + t.delay >= since + t.lease && c.now <= since + t.interval
    case Calling(since, applied) =>
      && c.now <= since + t.delay
      && (if applied then c.until == since + t.lease else c.until + t.delay + t.interval >= since + t.lease)
    case Over => true
  }

  lemma {:induction false} StaysOnTime(t: Timing, now: nat, events: seq<Event>)
    requires Legal(t, Start(t, now), events)
    ensures OnTime(t, Run(t, Start(t, now), events))
  {
    if events != [] {
      StaysOnTime(t, now, events[..|events| - 1]);
    }
  }

  // ---------- the bound is exact ----------

  function Ticks(n: nat): seq<Event> {
    if n == 0 then [] else Ticks(n - 1) + [Tick]
  }

  /** How long the phase lets the clock run. */
  function Limit(t: Timing, p: Phase): nat {
    match p
    case Claiming(since) => since + t.delay
    case Sleeping(since) => since + t.interval
    case Calling(since, _) => since + t.delay
    case Over => 0
  }

  lemma {:induction false} Then(t: Timing, c: Clock, events: seq<Event>, e: Event)
    requires Legal(t, c, events) && Enabled(t, Run(t, c, events), e)
    ensures Legal(t, c, events + [e]) && Run(t, c, events + [e]) == Apply(t, Run(t, c, events), e)
  {
  }

  lemma {:induction false} ThenTicks(t: Timing, c: Clock, events: seq<Event>, n: nat)
    requires Legal(t, c, events) && !Run(t, c, events).phase.Over?
    requires Run(t, c, events).now + n <= Limit(t, Run(t, c, events).phase)
    ensures Legal(t, c, events + Ticks(n))
    ensures Run(t, c, events + Ticks(n)) == Run(t, c, events).(now := Run(t, c, events).now + n)
  {
    if n == 0 {
      assert events + [] == events;
    } else {
      ThenTicks(t, c, events, n - 1);
      Then(t, c, events + Ticks(n - 1), Tick);
      assert events + Ticks(n) == events + Ticks(n - 1) + [Tick];
    }
  }

  /** Registration and the first renewal call both take as long as they may. */
  function Slowest(t: Timing): seq<Event> {
    Ticks(t.delay) + [Registered] + Ticks(t.interval) + [CallBegins] + Ticks(t.delay)
  }

  lemma {:induction false} SlowestRun(t: Timing, now: nat)
    ensures Legal(t, Start(t, now), Slowest(t))
    ensures var c := Run(t, Start(t, now), Slowest(t));
            c.now == now + t.interval + 2 * t.delay && c.until == now + t.lease && !c.phase.Over?
  {
    var c, d, i := Start(t, now), Ticks(t.delay), Ticks(t.interval);
    ThenTicks(t, c, [], t.delay);
    assert [] + d == d;
    Then(t, c, d, Registered);
    ThenTicks(t, c, d + [Registered], t.interval);
    Then(t, c, d + [Registered] + i, CallBegins);
    ThenTicks(t, c, d + [Registered] + i + [CallBegins], t.delay);
  }

  /** The lease of a held delivery never lapses, in any run, exactly when the renewal interval and
      twice the delay stay below the lease duration. */
  lemma {:induction false} LeaseContinuity(t: Timing, now: nat)
    ensures (forall events :: Legal(t, Start(t, now), events) ==> !Lapsed(Run(t, Start(t, now), events)))
       <==> t.interval + 2 * t.delay < t.lease
  {
    if t.interval + 2 * t.delay < t.lease {
      forall events | Legal(t, Start(t, now), events) ensures !Lapsed(Run(t, Start(t, now), events)) {
        StaysOnTime(t, now, events);
      }
    } else {
      SlowestRun(t, now);
      assert Lapsed(Run(t, Start(t, now), Slowest(t)));
    }
  }
}
