/** The leased outbox source against any store that keeps the lease contract: the claim loop, the
    settlement actor, the renewal tasks, other consumers of the store, and callers that may settle
    any delivery at any time. */
module OutboxModel {
  import opened Options
  import opened RouteJob

  // ---------- the store and its contract ----------

  datatype Lease = Lease(token: string, until: nat)

  datatype Row = Row(lease: Option<Lease>, availableAt: nat)

  /** The records of the store, and every lease token it ever gave out. */
  datatype Store = Store(rows: map<string, Row>, used: set<string>)

  /** A claimed record: its identifier and the token of the claim. */
  datatype Held = Held(id: string, token: string)

  predicate Claimable(s: Store, now: nat, id: string) {
    && id in s.rows && s.rows[id].availableAt <= now
    && (s.rows[id].lease.Some? ==> s.rows[id].lease.value.until <= now)
  }

  /** A claim gives out distinct records without an active lease, each under a new token. It may
      give out more of them than it was asked for. */
  ghost predicate ClaimAllowed(s: Store, now: nat, got: seq<Held>) {
    && (forall i :: 0 <= i < |got| ==> Claimable(s, now, got[i].id) && got[i].token !in s.used)
    && (forall i, j :: 0 <= i < j < |got| ==> got[i].id != got[j].id && got[i].token != got[j].token)
  }

  function Leased(s: Store, got: seq<Held>, until: nat): Store {
    if got == [] then s
    else
      var t, h := Leased(s, got[..|got| - 1], until), got[|got| - 1];
      Store(t.rows[h.id := Row(Some(Lease(h.token, until)), 0)], t.used + {h.token})
  }

  /** The token is that of the record's latest claim: only then may a call with it have an effect. */
  predicate Holds(s: Store, h: Held) {
    h.id in s.rows && s.rows[h.id].lease.Some? && s.rows[h.id].lease.value.token == h.token
  }

  function Acknowledged(s: Store, h: Held): Store {
    s.(rows := map id | id in s.rows && id != h.id :: s.rows[id])
  }

  function Released(s: Store, h: Held, availableAt: nat): Store {
    s.(rows := s.rows[h.id := Row(None, availableAt)])
  }

  function Renewed(s: Store, h: Held, until: nat): Store {
    s.(rows := s.rows[h.id := Row(Some(Lease(h.token, until)), 0)])
  }

  // ---------- the source ----------

  datatype Config = Config(lease: nat, retryDelay: nat, renews: bool)

  /** Where `claim_next` is. */
  datatype Claimer =
    | Idle
    | Paused
    | Claiming(until: nat)
    | Clearing(first: Held, excess: seq<Held>)
    | Registering(d: nat, held: Held, confirmed: bool)
    | Failing(failed: Held)
    | Ended

  datatype Command = Register(d: nat, held: Held) | Settle(d: nat, decision: Decision)

  /** Where `settlement_actor` is: between commands, waiting for a renewal task to end, or in the
      store call that settles. */
  datatype Actor =
    | Ready
    | Waiting(d: nat, held: Held, decision: Decision)
    | Calling(d: nat, held: Held, decision: Decision, retryAt: nat)
    | Stopped

  /** A renewal task: the deadline of the call it is in, if any, and whether it was told to stop. */
  datatype Renewal = Renewal(id: string, call: Option<nat>, stop: bool)

  /** What became of a lease this source claimed. */
  datatype Stage = Loose | Queued(d: nat) | Pending(d: nat) | Settling(d: nat) | Spent

  datatype Claim = Claim(id: string, stage: Stage)

  /** A store call the source began. */
  datatype Kind = Renews | GivesBack | Settles(d: nat, decision: Decision)

  datatype Call = Call(kind: Kind, held: Held)

  /** The components, and four histories: the leases claimed, the deliveries numbered, what callers
      asked for, and the store calls begun. `open` are the deliveries without an answered settlement. */
  datatype World = World(
    now: nat, store: Store, claimer: Claimer, queue: seq<Command>, pending: map<nat, Held>, actor: Actor,
    renewals: map<string, Renewal>, nextDelivery: nat,
    claims: map<string, Claim>, delivered: map<nat, Held>, asked: set<(nat, Decision)>, log: seq<Call>,
    open: set<nat>)

  datatype ClaimStep = Poll | Answered(got: seq<Held>) | NoAnswer | Wake | GiveBack(applied: bool) | Submit | Yield | GiveUp(applied: bool)

  datatype ActorStep = Take | RenewalOver | Returned(applied: bool) | Stop

  datatype RenewalStep = Begin(token: string) | Done(token: string, applied: bool) | End(token: string)

  datatype OutsideStep =
    | Ask(d: nat, decision: Decision)
    | Tick
    | Insert(id: string)
    | OtherClaims(got: seq<Held>, until: nat)
    | OtherAcknowledges(held: Held)
    | OtherReleases(held: Held, availableAt: nat)
    | OtherRenews(held: Held, until: nat)

  datatype Event = ByClaimer(c: ClaimStep) | ByActor(a: ActorStep) | ByRenewal(r: RenewalStep) | Outside(o: OutsideStep)

  function Start(now: nat): World {
    World(now, Store(map[], {}), Idle, [], map[], Ready, map[], 1, map[], map[], {}, [], {})
  }

  /** A lease moves on. */
  function Moved(claims: map<string, Claim>, h: Held, stage: Stage): map<string, Claim> {
    claims[h.token := Claim(h.id, stage)]
  }

  function AllLoose(claims: map<string, Claim>, got: seq<Held>): map<string, Claim> {
    if got == [] then claims else Moved(AllLoose(claims, got[..|got| - 1]), got[|got| - 1], Loose)
  }

  // ---------- the claim loop ----------

  ghost predicate EnabledClaimer(w: World, c: ClaimStep) {
    match c
    case Poll => w.claimer.Idle?
    case Answered(got) => w.claimer.Claiming? && ClaimAllowed(w.store, w.now, got)
    case NoAnswer => w.claimer.Claiming?
    case Wake => w.claimer.Paused?
    case GiveBack(applied) => w.claimer.Clearing? && w.claimer.excess != [] && (applied ==> Holds(w.store, w.claimer.excess[0]))
    case Submit => w.claimer.Clearing? && w.claimer.excess == []
    case Yield => w.claimer.Registering? && w.claimer.confirmed
    case GiveUp(applied) => w.claimer.Failing? && (applied ==> Holds(w.store, w.claimer.failed))
  }

  function ApplyAnswered(w: World, got: seq<Held>, until: nat): World {
    if got == [] then w.(claimer := Paused)
    else w.(claimer := Clearing(got[0], got[1..]), store := Leased(w.store, got, until), claims := AllLoose(w.claims, got))
  }

  function GivenBack(cfg: Config, w: World, h: Held, applied: bool, next: Claimer): World {
    w.(claimer := next, store := if applied then Released(w.store, h, w.now + cfg.retryDelay) else w.store,
       claims := Moved(w.claims, h, Spent), log := w.log + [Call(GivesBack, h)])
  }

  function ApplySubmit(w: World, h: Held): World {
    var d := w.nextDelivery;
    if w.actor.Stopped? then w.(claimer := Failing(h), nextDelivery := d + 1)
    else w.(claimer := Registering(d, h, false), nextDelivery := d + 1, queue := w.queue + [Register(d, h)],
            claims := Moved(w.claims, h, Queued(d)), delivered := w.delivered[d := h], open := w.open + {d})
  }

  function ApplyClaimer(cfg: Config, w: World, c: ClaimStep): World {
    match c
    case Poll => w.(claimer := Claiming(w.now + cfg.lease))
    case Answered(got) => if w.claimer.Claiming? then ApplyAnswered(w, got, w.claimer.until) else w
    case NoAnswer => w.(claimer := Paused)
    case Wake => w.(claimer := Claiming(w.now + cfg.lease))
    case GiveBack(applied) =>
      if w.claimer.Clearing? && w.claimer.excess != []
      then GivenBack(cfg, w, w.claimer.excess[0], applied, Clearing(w.claimer.first, w.claimer.excess[1..])) else w
    case Submit => if w.claimer.Clearing? then ApplySubmit(w, w.claimer.first) else w
    case Yield => w.(claimer := Idle)
    case GiveUp(applied) => if w.claimer.Failing? then GivenBack(cfg, w, w.claimer.failed, applied, Ended) else w
  }

  // ---------- the settlement actor ----------

  ghost predicate EnabledActor(w: World, a: ActorStep) {
    match a
    case Take => w.actor.Ready? && w.queue != []
    case RenewalOver => w.actor.Waiting? && w.actor.held.token !in w.renewals
    case Returned(applied) => w.actor.Calling? && (applied ==> Holds(w.store, w.actor.held))
    case Stop => !w.actor.Stopped?
  }

  function TakeRegister(cfg: Config, w: World, d: nat, h: Held): World
    requires w.queue != []
  {
    w.(queue := w.queue[1..], pending := w.pending[d := h], claims := Moved(w.claims, h, Pending(d)),
       renewals := if cfg.renews then w.renewals[h.token := Renewal(h.id, None, false)] else w.renewals,
       claimer := if w.claimer.Registering? && w.claimer.d == d then w.claimer.(confirmed := true) else w.claimer)
  }

  function Without(pending: map<nat, Held>, d: nat): map<nat, Held> {
    map x | x in pending && x != d :: pending[x]
  }

  function Told(renewals: map<string, Renewal>, token: string): map<string, Renewal> {
    if token in renewals then renewals[token := renewals[token].(stop := true)] else renewals
  }

  function TakeSettle(w: World, d: nat, decision: Decision): World
    requires w.queue != []
  {
    var v := w.(queue := w.queue[1..]);
    if d !in w.pending then v
    else
      var h := w.pending[d];
      v.(pending := Without(w.pending, d), actor := Waiting(d, h, decision),
         renewals := Told(w.renewals, h.token), claims := Moved(w.claims, h, Settling(d)))
  }

  /** `settle_record`. */
  function Settlement(s: Store, h: Held, decision: Decision, retryAt: nat): Store {
    match decision
    case Retry => Released(s, h, retryAt)
    case Ack => Acknowledged(s, h)
    case Reject => Acknowledged(s, h)
  }

  function ApplyRenewalOver(cfg: Config, w: World): World {
    match w.actor
    case Waiting(d, h, decision) =>
      w.(actor := Calling(d, h, decision, w.now + cfg.retryDelay), claims := Moved(w.claims, h, Spent),
         log := w.log + [Call(Settles(d, decision), h)])
    case _ => w
  }

  function ApplyReturned(w: World, applied: bool): World {
    match w.actor
    case Calling(d, h, decision, retryAt) =>
      w.(actor := Ready, store := if applied then Settlement(w.store, h, decision, retryAt) else w.store, open := w.open - {d})
    case _ => w
  }

  /** The actor ends, and its state with it; a registration still waiting for an answer fails. */
  function ApplyStop(w: World): World {
    var v := w.(actor := Stopped, queue := [], pending := map[],
                renewals := map t | t in w.renewals :: w.renewals[t].(stop := true));
    if w.claimer.Registering? && !w.claimer.confirmed
    then v.(claimer := Failing(w.claimer.held), claims := Moved(w.claims, w.claimer.held, Loose)) else v
  }

  function ApplyActor(cfg: Config, w: World, a: ActorStep): World {
    match a
    case Take =>
      if w.queue == [] then w
      else (match w.queue[0]
            case Register(d, h) => TakeRegister(cfg, w, d, h)
            case Settle(d, decision) => TakeSettle(w, d, decision))
    case RenewalOver => ApplyRenewalOver(cfg, w)
    case Returned(applied) => ApplyReturned(w, applied)
    case Stop => ApplyStop(w)
  }

  // ---------- the renewal tasks ----------

  /** A task that was told to stop may still begin one call when its timer is due at the same time. */
  ghost predicate EnabledRenewal(w: World, r: RenewalStep) {
    match r
    case Begin(t) => t in w.renewals && w.renewals[t].call.None?
    case Done(t, applied) =>
      t in w.renewals && w.renewals[t].call.Some? && (applied ==> Holds(w.store, Held(w.renewals[t].id, t)))
    case End(t) => t in w.renewals && w.renewals[t].call.None? && w.renewals[t].stop
  }

  function ApplyBegin(cfg: Config, w: World, t: string): World
    requires t in w.renewals
  {
    w.(renewals := w.renewals[t := w.renewals[t].(call := Some(w.now + cfg.lease))],
       log := w.log + [Call(Renews, Held(w.renewals[t].id, t))])
  }

  function ApplyDone(w: World, t: string, applied: bool): World
    requires t in w.renewals && w.renewals[t].call.Some?
  {
    var r := w.renewals[t];
    w.(renewals := w.renewals[t := r.(call := None)],
       store := if applied then Renewed(w.store, Held(r.id, t), r.call.value) else w.store)
  }

  function ApplyRenewal(cfg: Config, w: World, r: RenewalStep): World {
    match r
    case Begin(t) => if t in w.renewals then ApplyBegin(cfg, w, t) else w
    case Done(t, applied) => if t in w.renewals && w.renewals[t].call.Some? then ApplyDone(w, t, applied) else w
    case End(t) => w.(renewals := map x | x in w.renewals && x != t :: w.renewals[x])
  }

  // ---------- everybody else ----------

  ghost predicate EnabledOutside(w: World, o: OutsideStep) {
    match o
    case Ask(_, _) => true
    case Tick => true
    case Insert(id) => id !in w.store.rows
    case OtherClaims(got, _) => ClaimAllowed(w.store, w.now, got)
    case OtherAcknowledges(h) => h.token !in w.claims && Holds(w.store, h)
    case OtherReleases(h, _) => h.token !in w.claims && Holds(w.store, h)
    case OtherRenews(h, _) => h.token !in w.claims && Holds(w.store, h)
  }

  function ApplyAsk(w: World, d: nat, decision: Decision): World {
    w.(queue := if w.actor.Stopped? then w.queue else w.queue + [Settle(d, decision)], asked := w.asked + {(d, decision)})
  }

  function ApplyOutside(w: World, o: OutsideStep): World {
    match o
    case Ask(d, decision) => ApplyAsk(w, d, decision)
    case Tick => w.(now := w.now + 1)
    case Insert(id) => w.(store := w.store.(rows := w.store.rows[id := Row(None, 0)]))
    case OtherClaims(got, until) => w.(store := Leased(w.store, got, until))
    case OtherAcknowledges(h) => w.(store := Acknowledged(w.store, h))
    case OtherReleases(h, at) => w.(store := Released(w.store, h, at))
    case OtherRenews(h, until) => w.(store := Renewed(w.store, h, until))
  }

  ghost predicate Enabled(w: World, e: Event) {
    match e
    case ByClaimer(c) => EnabledClaimer(w, c)
    case ByActor(a) => EnabledActor(w, a)
    case ByRenewal(r) => EnabledRenewal(w, r)
    case Outside(o) => EnabledOutside(w, o)
  }

  function Apply(cfg: Config, w: World, e: Event): World {
    match e
    case ByClaimer(c) => ApplyClaimer(cfg, w, c)
    case ByActor(a) => ApplyActor(cfg, w, a)
    case ByRenewal(r) => ApplyRenewal(cfg, w, r)
    case Outside(o) => ApplyOutside(w, o)
  }

  function Run(cfg: Config, w: World, events: seq<Event>): World {
    if events == [] then w else Apply(cfg, Run(cfg, w, events[..|events| - 1]), events[|events| - 1])
  }

  /** Every step could be taken when it was. */
  ghost predicate Legal(cfg: Config, w: World, events: seq<Event>) {
    events != [] ==>
      && Legal(cfg, w, events[..|events| - 1])
      && Enabled(Run(cfg, w, events[..|events| - 1]), events[|events| - 1])
  }
}
