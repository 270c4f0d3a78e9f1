/** The outbox source in the form it runs in: options, claim loop, and settlement, each tied to a
    function of its state. */
module OutboxSource {
  import opened Options
  import opened RouteJob
  import opened OutboxModel

  datatype Settings = Settings(consumerId: string, lease: nat, poll: nat, retryDelay: nat, renewal: Option<nat>)

  datatype Fault = NoConsumer | NoLease | NoPoll | BadRenewal | AlreadyOpen | NotPending | StoreFailed

  predicate Valid(s: Settings) {
    && s.consumerId != "" && s.lease > 0 && s.poll > 0
    && (s.renewal.Some? ==> 0 < s.renewal.value < s.lease)
  }

  /** What the source and the store hold, and the store calls that end a lease. */
  datatype Ledger = Ledger(store: Store, pending: map<nat, Held>, nextDelivery: nat, calls: seq<Call>)

  /** What the store answered to one claim, and when. */
  datatype Answer = Answer(now: nat, got: seq<Held>)

  datatype Claimed = StillWaiting | SourceEnded | Yielded(d: nat, held: Held)

  /** The store refuses a call with a stale token, and may fail to carry out any other. */
  predicate Carried(s: Store, h: Held, failing: set<Held>) {
    Holds(s, h) && h !in failing
  }

  function Back(l: Ledger, h: Held, at: nat, failing: set<Held>): Ledger {
    l.(store := if Carried(l.store, h, failing) then Released(l.store, h, at) else l.store,
       calls := l.calls + [Call(GivesBack, h)])
  }

  function AllBack(l: Ledger, excess: seq<Held>, at: nat, failing: set<Held>): Ledger {
    if excess == [] then l else Back(AllBack(l, excess[..|excess| - 1], at, failing), excess[|excess| - 1], at, failing)
  }

  /** One claim that got something: the first record becomes a delivery, the others go back. */
  function Round(s: Settings, l: Ledger, a: Answer, registers: bool, failing: set<Held>): (Ledger, Claimed)
    requires a.got != []
  {
    var h, at := a.got[0], a.now + s.retryDelay;
    var m := AllBack(l.(store := Leased(l.store, a.got, a.now + s.lease)), a.got[1..], at, failing);
    if registers
    then (m.(pending := m.pending[m.nextDelivery := h], nextDelivery := m.nextDelivery + 1), Yielded(m.nextDelivery, h))
    else (Back(m.(nextDelivery := m.nextDelivery + 1), h, at, failing), SourceEnded)
  }

  function Claims(s: Settings, l: Ledger, answers: seq<Answer>, registers: bool, failing: set<Held>): (Ledger, Claimed) {
    if answers == [] then (l, StillWaiting)
    else if answers[0].got == [] then Claims(s, l, answers[1..], registers, failing)
    else Round(s, l, answers[0], registers, failing)
  }

  function AfterSettle(l: Ledger, d: nat, decision: Decision, at: nat, failing: set<Held>): (Ledger, Result<(), Fault>) {
    if d !in l.pending then (l, Err(NotPending))
    else
      var h := l.pending[d];
      var m := l.(pending := OutboxModel.Without(l.pending, d), calls := l.calls + [Call(Settles(d, decision), h)]);
      if Carried(l.store, h, failing) then (m.(store := Settlement(l.store, h, decision, at)), Ok(())) else (m, Err(StoreFailed))
  }

  /** `LeasedOutboxSource` with its settlement actor; answers of the store, clock readings, and
      whether the actor is there to register a delivery are parameters. */
  class LeasedSource {
    const settings: Settings
    var isOpen: bool
    var store: Store
    var pending: map<nat, Held>
    var nextDelivery: nat
    var calls: seq<Call>

    ghost function Value(): Ledger
      reads this
    {
      Ledger(store, pending, nextDelivery, calls)
    }

    constructor (settings: Settings, store: Store)
      ensures this.settings == settings && !isOpen && Value() == Ledger(store, map[], 1, [])
    {
      this.settings, this.isOpen, this.store := settings, false, store;
      this.pending, this.nextDelivery, this.calls := map[], 1, [];
    }

    /** The first fault, in this order. */
    method Validate() returns (r: Result<(), Fault>)
      ensures r.Ok? <==> Valid(settings)
      ensures r == Err(NoConsumer) <==> settings.consumerId == ""
      ensures r == Err(NoLease) <==> settings.consumerId != "" && settings.lease == 0
      ensures r == Err(NoPoll) <==> settings.consumerId != "" && settings.lease != 0 && settings.poll == 0
      ensures r == Err(BadRenewal) <==>
                settings.consumerId != "" && settings.lease != 0 && settings.poll != 0
                && settings.renewal.Some? && !(0 < settings.renewal.value < settings.lease)
      ensures r.Err? ==> r.error in {NoConsumer, NoLease, NoPoll, BadRenewal}
    {
      if settings.consumerId == "" {
        return Err(NoConsumer);
      }
      if settings.lease == 0 {
        return Err(NoLease);
      }
      if settings.poll == 0 {
        return Err(NoPoll);
      }
      if settings.renewal.Some? && (settings.renewal.value == 0 || settings.renewal.value >= settings.lease) {
        return Err(BadRenewal);
      }
      return Ok(());
    }

    method Open() returns (r: Result<(), Fault>)
      modifies this`isOpen
      ensures r.Ok? <==> Valid(settings) && !old(isOpen)
      ensures isOpen == (old(isOpen) || r.Ok?)
      ensures Valid(settings) && old(isOpen) ==> r == Err(AlreadyOpen)
    {
      var checked := Validate();
      if checked.Err? {
        return checked;
      }
      if isOpen {
        return Err(AlreadyOpen);
      }
      isOpen := true;
      return Ok(());
    }

    method ReleaseAfterClaimFailure(h: Held, at: nat, failing: set<Held>)
      modifies this`store, this`calls
      ensures Value() == Back(old(Value()), h, at, failing)
    {
      calls := calls + [Call(GivesBack, h)];
      if Carried(store, h, failing) {
        store := Released(store, h, at);
      }
    }

    method ReleaseExcess(excess: seq<Held>, at: nat, failing: set<Held>)
      modifies this`store, this`calls
      ensures Value() == AllBack(old(Value()), excess, at, failing)
    {
      for i := 0 to |excess|
        invariant Value() == AllBack(old(Value()), excess[..i], at, failing)
      {
        assert excess[..i + 1][..i] == excess[..i];
        ReleaseAfterClaimFailure(excess[i], at, failing);
      }
      assert excess[..|excess|] == excess;
    }

    /** `claim_next`, for as many answers as there are. */
    method ClaimNext(answers: seq<Answer>, registers: bool, failing: set<Held>) returns (r: Claimed)
      modifies this`store, this`calls, this`pending, this`nextDelivery
      ensures (Value(), r) == Claims(settings, old(Value()), answers, registers, failing)
    {
      var i := 0;
      while i < |answers|
        invariant i <= |answers| && Value() == old(Value())
        invariant Claims(settings, Value(), answers, registers, failing) == Claims(settings, Value(), answers[i..], registers, failing)
      {
        var a := answers[i];
        if a.got != [] {
          assert answers[i..][0] == a;
          r := DeliverFirst(a, registers, failing);
          return;
        }
        assert answers[i..][0] == a && answers[i..][1..] == answers[i + 1..];
        i := i + 1;
      }
      return StillWaiting;
    }

    method DeliverFirst(a: Answer, registers: bool, failing: set<Held>) returns (r: Claimed)
      requires a.got != []
      modifies this`store, this`calls, this`pending, this`nextDelivery
      ensures (Value(), r) == Round(settings, old(Value()), a, registers, failing)
    {
      store := Leased(store, a.got, a.now + settings.lease);
      ReleaseExcess(a.got[1..], a.now + settings.retryDelay, failing);
      var d := nextDelivery;
      nextDelivery := nextDelivery + 1;
      if !registers {
        ReleaseAfterClaimFailure(a.got[0], a.now + settings.retryDelay, failing);
        return SourceEnded;
      }
      pending := pending[d := a.got[0]];
      return Yielded(d, a.got[0]);
    }

    method Settle(d: nat, decision: Decision, at: nat, failing: set<Held>) returns (r: Result<(), Fault>)
      modifies this`store, this`calls, this`pending
      ensures (Value(), r) == AfterSettle(old(Value()), d, decision, at, failing)
    {
      if d !in pending {
        return Err(NotPending);
      }
      var h := pending[d];
      pending := OutboxModel.Without(pending, d);
      calls := calls + [Call(Settles(d, decision), h)];
      if !Carried(store, h, failing) {
        return Err(StoreFailed);
      }
      store := Settlement(store, h, decision, at);
      return Ok(());
    }
  }

  function GivesBacks(hs: seq<Held>): (calls: seq<Call>)
    ensures |calls| == |hs| && forall i :: 0 <= i < |hs| ==> calls[i] == Call(GivesBack, hs[i])
  {
    seq(|hs|, i requires 0 <= i < |hs| => Call(GivesBack, hs[i]))
  }

  /** The claim loop passes over failed and empty claims; of the first claim that got something it
      delivers the first record and gives every other one back, or all of them when the delivery
      cannot be registered. */
  lemma {:induction false} FirstRecordCounts(s: Settings, l: Ledger, answers: seq<Answer>, k: nat, registers: bool, failing: set<Held>)
    requires k < |answers| && answers[k].got != [] && forall i :: 0 <= i < k ==> answers[i].got == []
    ensures var (m, r) := Claims(s, l, answers, registers, failing); var got := answers[k].got;
            && m.nextDelivery == l.nextDelivery + 1
            && r == (if registers then Yielded(l.nextDelivery, got[0]) else SourceEnded)
            && m.pending == (if registers then l.pending[l.nextDelivery := got[0]] else l.pending)
            && m.calls == l.calls + GivesBacks(got[1..]) + (if registers then [] else GivesBacks([got[0]]))
    decreases k
  {
    if k > 0 {
      FirstRecordCounts(s, l, answers[1..], k - 1, registers, failing);
    } else {
      var a := answers[0];
      BackKeeps(l.(store := Leased(l.store, a.got, a.now + s.lease)), a.got[1..], a.now + s.retryDelay, failing);
    }
  }

  lemma {:induction false} BackKeeps(l: Ledger, excess: seq<Held>, at: nat, failing: set<Held>)
    ensures var m := AllBack(l, excess, at, failing);
            m.pending == l.pending && m.nextDelivery == l.nextDelivery && m.calls == l.calls + GivesBacks(excess)
  {
    if excess != [] {
      BackKeeps(l, excess[..|excess| - 1], at, failing);
    }
  }
}
