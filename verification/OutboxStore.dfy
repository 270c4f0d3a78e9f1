/** What the outbox source does to the records of the store, row by row. */
module OutboxStore {
  import opened Options
  import opened RouteJob
  import opened OutboxModel
  import opened OutboxSafety
  import opened OutboxTheorems
  import opened OutboxSource

  /** Anybody may claim the record again from `at` on. */
  predicate FreeFrom(t: Store, id: string, at: nat) {
    id in t.rows && t.rows[id].lease.None? && t.rows[id].availableAt == at
  }

  predicate LeasedUntil(t: Store, h: Held, until: nat) {
    h.id in t.rows && t.rows[h.id].lease == Some(Lease(h.token, until))
  }

  predicate SameRow(s: Store, t: Store, id: string) {
    (id in s.rows <==> id in t.rows) && (id in s.rows ==> t.rows[id] == s.rows[id])
  }

  ghost predicate OthersSame(s: Store, t: Store, id: string) {
    t.used == s.used && forall other :: other != id ==> SameRow(s, t, other)
  }

  /** The record is gone when it was to be acknowledged or rejected, and free again from `at` on when
      it was to be retried. */
  ghost predicate Settled(s: Store, t: Store, id: string, decision: Decision, at: nat) {
    && OthersSame(s, t, id)
    && (if decision == Retry then FreeFrom(t, id, at) else id !in t.rows)
  }

  // ---------- claims ----------

  ghost predicate IdsApart(got: seq<Held>) {
    forall i, j :: 0 <= i < j < |got| ==> got[i].id != got[j].id
  }

  ghost predicate NotAmong(got: seq<Held>, id: string) {
    forall i :: 0 <= i < |got| ==> got[i].id != id
  }

  /** Each record of the claim is leased under its own token, and no other row changes. */
  lemma {:induction false} ClaimLeases(s: Store, got: seq<Held>, until: nat)
    requires IdsApart(got)
    ensures var t := Leased(s, got, until);
            && (forall i :: 0 <= i < |got| ==> LeasedUntil(t, got[i], until))
            && (forall id :: NotAmong(got, id) ==> SameRow(s, t, id))
  {
    if got != [] {
      var front, h := got[..|got| - 1], got[|got| - 1];
      ClaimLeases(s, front, until);
      forall i | 0 <= i < |got| ensures LeasedUntil(Leased(s, got, until), got[i], until) {
        assert i < |front| ==> front[i] == got[i] && got[i].id != h.id;
      }
      forall id | NotAmong(got, id) ensures SameRow(s, Leased(s, got, until), id) {
        assert NotAmong(front, id) && h.id != id;
      }
    }
  }

  // ---------- the steps of the source ----------

  /** What each step of the source does to the store: a claim leases what it gets, giving back and a
      retry free a record, an acknowledgement and a rejection remove it, a renewal moves the deadline
      of its lease, each only when the store carried it out, and nothing else changes any row. */
  ghost predicate StoreAfter(cfg: Config, w: World, e: Event, v: World) {
    match e
    case ByClaimer(Answered(got)) =>
      && (forall i :: 0 <= i < |got| ==> w.claimer.Claiming? && LeasedUntil(v.store, got[i], w.claimer.until))
      && (forall id :: NotAmong(got, id) ==> SameRow(w.store, v.store, id))
    case ByClaimer(GiveBack(true)) =>
      w.claimer.Clearing? && w.claimer.excess != []
      && OthersSame(w.store, v.store, w.claimer.excess[0].id)
      && FreeFrom(v.store, w.claimer.excess[0].id, w.now + cfg.retryDelay)
    case ByClaimer(GiveUp(true)) =>
      w.claimer.Failing? && OthersSame(w.store, v.store, w.claimer.failed.id)
      && FreeFrom(v.store, w.claimer.failed.id, w.now + cfg.retryDelay)
    case ByActor(Returned(true)) =>
      w.actor.Calling? && Settled(w.store, v.store, w.actor.held.id, w.actor.decision, w.actor.retryAt)
    case ByRenewal(Done(token, true)) =>
      token in w.renewals && w.renewals[token].call.Some?
      && OthersSame(w.store, v.store, w.renewals[token].id)
      && LeasedUntil(v.store, Held(w.renewals[token].id, token), w.renewals[token].call.value)
    case Outside(_) => true
    case _ => v.store == w.store
  }

  lemma ClaimerOnStore(cfg: Config, w: World, c: ClaimStep)
    requires EnabledClaimer(w, c)
    ensures StoreAfter(cfg, w, ByClaimer(c), ApplyClaimer(cfg, w, c))
  {
    if c.Answered? {
      ClaimLeases(w.store, c.got, w.claimer.until);
    }
  }

  lemma SettlementIs(s: Store, h: Held, decision: Decision, at: nat)
    requires Holds(s, h)
    ensures Settled(s, Settlement(s, h, decision, at), h.id, decision, at)
  {
  }

  lemma ActorOnStore(cfg: Config, w: World, a: ActorStep)
    requires EnabledActor(w, a)
    ensures StoreAfter(cfg, w, ByActor(a), ApplyActor(cfg, w, a))
  {
    if a == Returned(true) {
      SettlementIs(w.store, w.actor.held, w.actor.decision, w.actor.retryAt);
    }
  }

  lemma RenewalOnStore(cfg: Config, w: World, r: RenewalStep)
    requires EnabledRenewal(w, r)
    ensures StoreAfter(cfg, w, ByRenewal(r), ApplyRenewal(cfg, w, r))
  {
  }

  lemma StepOnStore(cfg: Config, w: World, e: Event)
    requires Enabled(w, e)
    ensures StoreAfter(cfg, w, e, Apply(cfg, w, e))
  {
    match e {
      case ByClaimer(c) => ClaimerOnStore(cfg, w, c);
      case ByActor(a) => ActorOnStore(cfg, w, a);
      case ByRenewal(r) => RenewalOnStore(cfg, w, r);
      case Outside(o) =>
    }
  }

  // ---------- a record that was handled is gone ----------

  lemma {:induction false} ClaimAddsNothing(s: Store, now: nat, got: seq<Held>, until: nat, id: string)
    requires ClaimAllowed(s, now, got) && id !in s.rows
    ensures id !in Leased(s, got, until).rows
  {
    forall i | 0 <= i < |got| ensures got[i].id != id {
      assert Claimable(s, now, got[i].id);
    }
    ClaimLeases(s, got, until);
    assert NotAmong(got, id) && SameRow(s, Leased(s, got, until), id);
  }

  /** Only an insertion brings a record into the store. */
  lemma OnlyInsertionsAdd(cfg: Config, w: World, e: Event, id: string)
    requires Enabled(w, e) && id !in w.store.rows && e != Outside(Insert(id))
    ensures id !in Apply(cfg, w, e).store.rows
  {
    match e {
      case ByClaimer(c) =>
        if c.Answered? { ClaimAddsNothing(w.store, w.now, c.got, w.claimer.until, id); }
      case ByActor(a) => StepOnStore(cfg, w, e);
      case ByRenewal(r) => StepOnStore(cfg, w, e);
      case Outside(o) =>
        if o.OtherClaims? { ClaimAddsNothing(w.store, w.now, o.got, o.until, id); }
    }
  }

  /** In every run: once the store has carried out a settlement with `Ack` or `Reject`, the record
      is gone, and stays away until somebody inserts it again. */
  lemma {:induction false} HandledRecordIsGone(cfg: Config, now: nat, events: seq<Event>, k: nat)
    requires Legal(cfg, Start(now), events) && k < |events| && events[k] == ByActor(Returned(true))
    requires var w := Run(cfg, Start(now), events[..k]); w.actor.Calling? ==> w.actor.decision != Retry
    requires var w := Run(cfg, Start(now), events[..k]);
             w.actor.Calling? ==> forall j :: k < j < |events| ==> events[j] != Outside(Insert(w.actor.held.id))
    ensures var w := Run(cfg, Start(now), events[..k]);
            w.actor.Calling? && w.actor.held.id !in Run(cfg, Start(now), events).store.rows
    decreases |events|
  {
    var front, w := events[..|events| - 1], Run(cfg, Start(now), events[..k]);
    if k == |events| - 1 {
      StepOnStore(cfg, w, events[k]);
    } else {
      assert front[..k] == events[..k];
      HandledRecordIsGone(cfg, now, front, k);
      OnlyInsertionsAdd(cfg, Run(cfg, Start(now), front), events[|events| - 1], w.actor.held.id);
    }
  }

  // ---------- the methods ----------

  /** A settlement that is known and carried out does to the record what was decided; one that the
      store does not carry out, and one that is unknown, leave every record as it was. */
  lemma SettleDecides(l: Ledger, d: nat, decision: Decision, at: nat, failing: set<Held>)
    ensures var (m, r) := AfterSettle(l, d, decision, at, failing);
            && (r == Err(NotPending) <==> d !in l.pending)
            && (r.Err? ==> m.store == l.store)
            && (r.Ok? <==> d in l.pending && Holds(l.store, l.pending[d]) && l.pending[d] !in failing)
            && (r.Ok? ==> Settled(l.store, m.store, l.pending[d].id, decision, at))
  {
    if d in l.pending && Carried(l.store, l.pending[d], failing) {
      SettlementIs(l.store, l.pending[d], decision, at);
    }
  }

  /** Giving back some leases frees those that the store carries out and touches nothing else. */
  lemma {:induction false} AllBackFrees(l: Ledger, excess: seq<Held>, at: nat, failing: set<Held>)
    requires IdsApart(excess) && forall i :: 0 <= i < |excess| ==> Holds(l.store, excess[i])
    ensures var t := AllBack(l, excess, at, failing).store;
            && (forall i :: 0 <= i < |excess| && excess[i] !in failing ==> FreeFrom(t, excess[i].id, at))
            && (forall i :: 0 <= i < |excess| && excess[i] in failing ==> SameRow(l.store, t, excess[i].id))
            && (forall id :: NotAmong(excess, id) ==> SameRow(l.store, t, id))
  {
    if excess != [] {
      var front, h := excess[..|excess| - 1], excess[|excess| - 1];
      AllBackFrees(l, front, at, failing);
      var m := AllBack(l, front, at, failing);
      assert NotAmong(front, h.id) && SameRow(l.store, m.store, h.id) && Holds(m.store, h);
      forall i | 0 <= i < |front| ensures excess[i] == front[i] && excess[i].id != h.id {
      }
      forall id | NotAmong(excess, id) ensures SameRow(l.store, AllBack(l, excess, at, failing).store, id) {
        assert NotAmong(front, id) && id != h.id;
      }
    }
  }

  /** The releases after a claim that leased `got` in `l`. */
  lemma {:induction false} ReleasesAfterClaim(l: Ledger, got: seq<Held>, until: nat, at: nat, failing: set<Held>)
    requires got != [] && IdsApart(got) && forall i :: 0 <= i < |got| ==> LeasedUntil(l.store, got[i], until)
    ensures var t := AllBack(l, got[1..], at, failing).store;
            && LeasedUntil(t, got[0], until)
            && (forall i :: 0 < i < |got| ==>
                  if got[i] in failing then LeasedUntil(t, got[i], until) else FreeFrom(t, got[i].id, at))
            && (forall id :: NotAmong(got, id) ==> SameRow(l.store, t, id))
  {
    var rest, t := got[1..], AllBack(l, got[1..], at, failing).store;
    forall i | 0 <= i < |rest| ensures Holds(l.store, rest[i]) && rest[i].id != got[0].id {
      assert LeasedUntil(l.store, got[i + 1], until);
    }
    AllBackFrees(l, rest, at, failing);
    assert NotAmong(rest, got[0].id) && SameRow(l.store, t, got[0].id);
    forall i | 0 < i < |got|
      ensures if got[i] in failing then LeasedUntil(t, got[i], until) else FreeFrom(t, got[i].id, at)
    {
      assert got[i] == rest[i - 1] && LeasedUntil(l.store, got[i], until);
    }
    forall id | NotAmong(got, id) ensures SameRow(l.store, t, id) {
      assert NotAmong(rest, id);
    }
  }

  /** After the first claim that got something: the delivered record is leased to this consumer for
      the lease duration; every other one, and the delivered one too when it cannot be registered, is
      free again after the retry delay if the store carried out its release; no other row changed. */
  lemma RoundOnStore(s: Settings, l: Ledger, a: Answer, registers: bool, failing: set<Held>)
    requires a.got != [] && ClaimAllowed(l.store, a.now, a.got)
    ensures var t := Round(s, l, a, registers, failing).0.store;
            && (forall i :: 0 <= i < |a.got| ==>
                  if (i == 0 && registers) || a.got[i] in failing then LeasedUntil(t, a.got[i], a.now + s.lease)
                  else FreeFrom(t, a.got[i].id, a.now + s.retryDelay))
            && (forall id :: NotAmong(a.got, id) ==> SameRow(l.store, t, id))
  {
    var leased := l.(store := Leased(l.store, a.got, a.now + s.lease));
    ClaimLeases(l.store, a.got, a.now + s.lease);
    ReleasesAfterClaim(leased, a.got, a.now + s.lease, a.now + s.retryDelay, failing);
    var m := AllBack(leased, a.got[1..], a.now + s.retryDelay, failing);
    forall id | NotAmong(a.got, id) ensures SameRow(l.store, m.store, id) && id != a.got[0].id {
      assert SameRow(l.store, leased.store, id) && SameRow(leased.store, m.store, id);
    }
  }

  lemma {:induction false} FirstThatGotSomething(
      s: Settings, l: Ledger, answers: seq<Answer>, k: nat, registers: bool, failing: set<Held>)
    requires k < |answers| && answers[k].got != [] && forall i :: 0 <= i < k ==> answers[i].got == []
    ensures Claims(s, l, answers, registers, failing) == Round(s, l, answers[k], registers, failing)
    decreases k
  {
    if k > 0 {
      FirstThatGotSomething(s, l, answers[1..], k - 1, registers, failing);
    }
  }

  /** The same for the claim loop over any answers. */
  lemma {:induction false} ClaimOnStore(s: Settings, l: Ledger, answers: seq<Answer>, k: nat, registers: bool, failing: set<Held>)
    requires k < |answers| && answers[k].got != [] && forall i :: 0 <= i < k ==> answers[i].got == []
    requires ClaimAllowed(l.store, answers[k].now, answers[k].got)
    ensures var t, a := Claims(s, l, answers, registers, failing).0.store, answers[k];
            && (forall i :: 0 <= i < |a.got| ==>
                  if (i == 0 && registers) || a.got[i] in failing then LeasedUntil(t, a.got[i], a.now + s.lease)
                  else FreeFrom(t, a.got[i].id, a.now + s.retryDelay))
            && (forall id :: NotAmong(a.got, id) ==> SameRow(l.store, t, id))
  {
    FirstThatGotSomething(s, l, answers, k, registers, failing);
    RoundOnStore(s, l, answers[k], registers, failing);
  }
}
