/** The control invariant of the partition scheduler: who serves a key, which commands are on
    their way to the registry, and where every sender is. */
module PartitionControl {
  import opened Options
  import opened Sequences
  import opened RouteJob
  import opened PartitionRegistry
  import opened PartitionModel

  predicate PhaseOk(c: Config, r: nat, route: Route) {
    match route.phase
    case Submitting(i) => i < route.taken && KeyOf(c, Job(r, i)).Some?
    case Waiting(i) => i < route.taken && KeyOf(c, Job(r, i)).Some?
    case Granted(i, _) => i < route.taken && KeyOf(c, Job(r, i)).Some?
    case Sending(i, _) => i < route.taken && KeyOf(c, Job(r, i)).Some?
    case Inline(i, _) => i < route.taken && KeyOf(c, Job(r, i)).None? && InlineAt(c, r, route.phase)
    case Aborted(lost) => lost.Some? ==> lost.value < route.taken && KeyOf(c, Job(r, lost.value)).Some?
    case _ => true
  }

  ghost predicate RoutesOk(c: Config, s: State) {
    && |s.routes| == |c.routes|
    && forall r :: 0 <= r < |s.routes| ==>
         s.routes[r].taken <= |c.routes[r].source| && PhaseOk(c, r, s.routes[r])
  }

  predicate MayRun(m: Mode) {
    m.Serving? || m.Draining? || m.LastDrain?
  }

  predicate WorkerOk(c: Config, w: Worker) {
    && |w.queue| <= c.capacity
    && (w.running.Some? ==> MayRun(w.mode))
    && (w.mode.Done? ==> w.queue == [])
    && w.mode != Answered(false)
  }

  /** At most one generation of a key is not done: the last one spawned. */
  ghost predicate WorkersOk(c: Config, s: State) {
    && (forall g :: g in s.workers ==> 1 <= g < s.registry.nextGeneration && WorkerOk(c, s.workers[g]))
    && (forall g :: g in s.workers && !s.workers[g].mode.Done? ==>
          s.workers[g].key in s.current && s.current[s.workers[g].key] == g)
    && (forall key :: key in s.current ==>
          s.current[key] in s.workers && s.workers[s.current[key]].key == key)
    && s.registry.nextGeneration >= 1
  }

  predicate EntryOk(workers: map<nat, Worker>, key: Key, e: Entry) {
    && e.gen in workers && workers[e.gen].key == key
    && var m := workers[e.gen].mode;
       match e
       case Active(_) => m.Serving? || m.Asking? || m.LastDrain?
       case Retiring(_, _) => m.Answered? || m.Draining? || m.Done?
  }

  ghost predicate EntriesOk(s: State) {
    && (forall key :: key in s.registry.entries ==> EntryOk(s.workers, key, s.registry.entries[key]))
    && (s.registryUp ==> forall g :: g in s.workers && !s.workers[g].mode.Done? ==>
          s.workers[g].key in s.registry.entries && s.registry.entries[s.workers[g].key].gen == g)
  }

  predicate IsRetiring(reg: Registry, key: Key, gen: nat) {
    key in reg.entries && reg.entries[key].Retiring? && reg.entries[key].gen == gen
  }

  predicate MayBeWaiting(c: Config, routes: seq<Route>, key: Key, r: nat) {
    r < |routes| &&
    match routes[r].phase
    case Waiting(i) => KeyOf(c, Job(r, i)) == Some(key)
    case Aborted(_) => true
    case _ => false
  }

  predicate IsMode(workers: map<nat, Worker>, key: Key, g: nat, mode: Mode) {
    g in workers && workers[g].key == key && workers[g].mode == mode
  }

  /** A command a worker sent is still about that worker. */
  predicate CommandOk(workers: map<nat, Worker>, reg: Registry, command: Command) {
    match command
    case Acquire(_, _) => true
    case BeginRetirement(key, g) => IsMode(workers, key, g, Asking)
    case Retired(key, g) => IsRetiring(reg, key, g) && IsMode(workers, key, g, Done)
  }

  predicate RetiringDone(workers: map<nat, Worker>, e: Entry) {
    e.Retiring? && e.gen in workers && workers[e.gen].mode.Done?
  }

  ghost predicate CommandsOk(workers: map<nat, Worker>, reg: Registry, commands: seq<Command>) {
    && Distinct(commands)
    && (forall x :: x in commands ==> CommandOk(workers, reg, x))
    && (forall g :: g in workers && workers[g].mode.Asking? ==> BeginRetirement(workers[g].key, g) in commands)
    && (forall key :: key in reg.entries && RetiringDone(workers, reg.entries[key]) ==>
          Retired(key, reg.entries[key].gen) in commands)
  }

  predicate IsWaiter(reg: Registry, key: Key, r: nat) {
    key in reg.entries && reg.entries[key].Retiring? && r in reg.entries[key].waiters
  }

  /** A waiting request is in the command queue or among the waiters of its key, never both. */
  ghost predicate RequestsOk(c: Config, routes: seq<Route>, commands: seq<Command>, reg: Registry) {
    && (forall key, r: nat :: Acquire(key, r) in commands ==> MayBeWaiting(c, routes, key, r))
    && (forall key, other, r: nat :: Acquire(key, r) in commands && Acquire(other, r) in commands ==> key == other)
    && (forall key, r: nat :: IsWaiter(reg, key, r) ==> MayBeWaiting(c, routes, key, r))
    && (forall key, other, r: nat :: IsWaiter(reg, key, r) ==> Acquire(other, r) !in commands)
    && (forall key :: key in reg.entries && reg.entries[key].Retiring? ==> Distinct(reg.entries[key].waiters))
    && (forall r: nat :: r < |routes| && routes[r].phase.Waiting? ==>
          Pledged(c, commands, reg, r, routes[r].phase.index))
  }

  predicate Pledged(c: Config, commands: seq<Command>, reg: Registry, r: nat, i: nat) {
    var key := KeyOf(c, Job(r, i));
    key.Some? && (Acquire(key.value, r) in commands || IsWaiter(reg, key.value, r))
  }

  /** A held sender points at a live worker of the job's key. */
  predicate SenderOk(c: Config, workers: map<nat, Worker>, r: nat, p: Phase) {
    p.Granted? || p.Sending? ==>
      && p.gen in workers && !workers[p.gen].mode.Done?
      && KeyOf(c, Job(r, p.index)) == Some(workers[p.gen].key)
  }

  ghost predicate SendersOk(c: Config, s: State) {
    forall r :: 0 <= r < |s.routes| ==> SenderOk(c, s.workers, r, s.routes[r].phase)
  }

  ghost predicate LifeOk(s: State) {
    && (!s.handles ==> forall r :: 0 <= r < |s.routes| ==> Over(s.routes[r].phase))
    && (forall g :: g in s.workers && s.workers[g].mode.LastDrain? ==> !Strong(s.handles, s.workers))
    && (!s.registryUp ==> !Strong(s.handles, s.workers) && s.registry.entries == map[] && s.commands == [])
  }

  ghost predicate Control(c: Config, s: State) {
    && RoutesOk(c, s) && WorkersOk(c, s) && EntriesOk(s)
    && CommandsOk(s.workers, s.registry, s.commands)
    && RequestsOk(c, s.routes, s.commands, s.registry) && SendersOk(c, s) && LifeOk(s)
  }

  lemma ControlInit(c: Config)
    ensures Control(c, Init(c))
  {
  }

  /** A route asks for a sender: its own phase and the command queue change. */
  ghost predicate Asked(s: State, t: State, r: nat, i: nat, key: Key) {
    && r < |s.routes| && s.routes[r].phase == Submitting(i)
    && t.routes == s.routes[r := s.routes[r].(phase := Waiting(i))] && t.commands == s.commands + [Acquire(key, r)]
    && t.workers == s.workers && t.registry == s.registry && t.current == s.current
    && t.registryUp == s.registryUp && t.handles == s.handles
  }

  lemma AskedCommands(c: Config, s: State, t: State, r: nat, i: nat, key: Key)
    requires CommandsOk(s.workers, s.registry, s.commands) && RequestsOk(c, s.routes, s.commands, s.registry)
    requires Asked(s, t, r, i, key)
    ensures CommandsOk(t.workers, t.registry, t.commands)
  {
    assert !MayBeWaiting(c, s.routes, key, r);
    DistinctConcat(s.commands, [Acquire(key, r)]);
  }

  lemma AskedRequests(c: Config, s: State, t: State, r: nat, i: nat, key: Key)
    requires RequestsOk(c, s.routes, s.commands, s.registry) && Asked(s, t, r, i, key)
    requires KeyOf(c, Job(r, i)) == Some(key)
    ensures RequestsOk(c, t.routes, t.commands, t.registry)
  {
    forall k, q: nat ensures MayBeWaiting(c, s.routes, k, q) ==> q != r && MayBeWaiting(c, t.routes, k, q) {
    }
    forall q: nat | q < |t.routes| && t.routes[q].phase.Waiting?
      ensures Pledged(c, t.commands, t.registry, q, t.routes[q].phase.index)
    {
      assert q != r ==> Pledged(c, s.commands, s.registry, q, s.routes[q].phase.index);
    }
  }

  lemma AskedLife(s: State, t: State, r: nat, i: nat, key: Key)
    requires LifeOk(s) && Asked(s, t, r, i, key)
    ensures LifeOk(t)
  {
    assert !Over(s.routes[r].phase);
  }

  lemma AskedControl(c: Config, s: State, t: State, r: nat, i: nat, key: Key)
    requires Control(c, s) && Asked(s, t, r, i, key) && KeyOf(c, Job(r, i)) == Some(key)
    ensures Control(c, t)
  {
    assert PhaseOk(c, r, s.routes[r]);
    AskedCommands(c, s, t, r, i, key);
    AskedRequests(c, s, t, r, i, key);
    AskedLife(s, t, r, i, key);
  }

  lemma ControlSendAcquire(c: Config, s: State, r: nat)
    requires Control(c, s) && EnabledRoute(c, s, r, SendAcquire)
    ensures Control(c, ApplyRoute(c, s, r, SendAcquire))
  {
    var i := s.routes[r].phase.index;
    AskedControl(c, s, ApplyRoute(c, s, r, SendAcquire), r, i, KeyOf(c, Job(r, i)).value);
  }

  /** `t` is `s` after route `r` moved on by itself. */
  ghost predicate OneRoute(s: State, t: State, r: nat, route: Route) {
    && r < |s.routes| && t.routes == s.routes[r := route]
    && t.workers == s.workers && t.registry == s.registry && t.current == s.current
    && t.commands == s.commands && t.registryUp == s.registryUp && t.handles == s.handles
  }

  lemma ControlOneRoute(c: Config, s: State, t: State, r: nat, route: Route)
    requires Control(c, s) && OneRoute(s, t, r, route)
    requires route.taken <= |c.routes[r].source| && PhaseOk(c, r, route)
    requires !Over(s.routes[r].phase)
    requires route.phase.Aborted? || !s.routes[r].phase.Waiting?
    requires !route.phase.Waiting? && SenderOk(c, s.workers, r, route.phase)
    ensures Control(c, t)
  {
    forall key, q: nat | MayBeWaiting(c, s.routes, key, q) ensures MayBeWaiting(c, t.routes, key, q) {
    }
  }

  lemma ControlSend(c: Config, s: State, r: nat)
    requires Control(c, s) && EnabledRoute(c, s, r, Send)
    ensures Control(c, ApplyRoute(c, s, r, Send))
  {
    var t, g := ApplyRoute(c, s, r, Send), s.routes[r].phase.gen;
    var u := s.(routes := t.routes);
    ControlOneRoute(c, s, u, r, t.routes[r]);
    assert WorkerOk(c, s.workers[g]);
    ControlSameMode(c, u, t, g, t.workers[g]);
  }

  lemma ControlRoute(c: Config, s: State, r: nat, act: RouteStep)
    requires Control(c, s) && EnabledRoute(c, s, r, act)
    ensures Control(c, ApplyRoute(c, s, r, act))
  {
    var t := ApplyRoute(c, s, r, act);
    assert PhaseOk(c, r, s.routes[r]) && SenderOk(c, s.workers, r, s.routes[r].phase);
    if act.SendAcquire? {
      ControlSendAcquire(c, s, r);
    } else if act.Send? {
      ControlSend(c, s, r);
    } else {
      assert PhaseOk(c, r, t.routes[r]);
      ControlOneRoute(c, s, t, r, t.routes[r]);
    }
  }

  /** `t` is `s` after worker `g` became `w`, as far as control is concerned. */
  ghost predicate OneWorker(s: State, t: State, g: nat, w: Worker) {
    && g in s.workers && t.workers == s.workers[g := w] && w.key == s.workers[g].key
    && t.routes == s.routes && t.registry == s.registry && t.current == s.current
    && t.registryUp == s.registryUp && t.handles == s.handles
  }

  lemma WorkersAfter(c: Config, s: State, t: State, g: nat, w: Worker)
    requires WorkersOk(c, s) && OneWorker(s, t, g, w) && WorkerOk(c, w)
    requires s.workers[g].mode.Done? ==> w.mode.Done?
    ensures WorkersOk(c, t)
  {
  }

  lemma EntriesAfter(s: State, t: State, g: nat, w: Worker)
    requires EntriesOk(s) && OneWorker(s, t, g, w)
    requires s.workers[g].mode.Done? ==> w.mode.Done?
    requires forall key :: key in s.registry.entries && s.registry.entries[key].gen == g ==>
               EntryOk(t.workers, key, s.registry.entries[key])
    ensures EntriesOk(t)
  {
  }

  lemma SendersAfter(c: Config, s: State, t: State, g: nat, w: Worker)
    requires SendersOk(c, s) && OneWorker(s, t, g, w)
    requires w.mode.Done? ==> s.workers[g].mode.Done? || SendersGone(s, g)
    ensures SendersOk(c, t)
  {
  }

  /** Nothing but the queue and the running job of one worker changes. */
  lemma ControlSameMode(c: Config, s: State, t: State, g: nat, w: Worker)
    requires Control(c, s) && OneWorker(s, t, g, w) && t.commands == s.commands
    requires w.mode == s.workers[g].mode && WorkerOk(c, w)
    ensures Control(c, t)
  {
    WorkersAfter(c, s, t, g, w);
    EntriesAfter(s, t, g, w);
    SendersAfter(c, s, t, g, w);
    CommandsSameMode(c, s, t, g, w);
    LifeSameMode(s, t, g, w);
  }

  lemma LifeSameMode(s: State, t: State, g: nat, w: Worker)
    requires LifeOk(s) && OneWorker(s, t, g, w) && t.commands == s.commands && w.mode == s.workers[g].mode
    ensures LifeOk(t)
  {
  }

  lemma CommandsSameMode(c: Config, s: State, t: State, g: nat, w: Worker)
    requires CommandsOk(s.workers, s.registry, s.commands) && OneWorker(s, t, g, w) && t.commands == s.commands
    requires w.mode == s.workers[g].mode
    ensures CommandsOk(t.workers, t.registry, t.commands)
  {
  }

  /** A worker changes its mode and tells the registry. */
  lemma CommandsTold(c: Config, s: State, t: State, g: nat, w: Worker, x: Command)
    requires CommandsOk(s.workers, s.registry, s.commands) && OneWorker(s, t, g, w) && t.commands == s.commands + [x]
    requires !s.workers[g].mode.Asking? && !s.workers[g].mode.Done? && MayRun(s.workers[g].mode)
    requires CommandOk(t.workers, t.registry, x) && !CommandOk(s.workers, s.registry, x)
    requires match w.mode
             case Asking => x == BeginRetirement(w.key, g)
             case Done => x == Retired(w.key, g)
             case _ => false
    requires w.mode.Done? ==> forall key :: key in s.registry.entries && s.registry.entries[key].gen == g ==> key == w.key
    ensures CommandsOk(t.workers, t.registry, t.commands)
  {
    DistinctConcat(s.commands, [x]);
    forall y | y in t.commands ensures CommandOk(t.workers, t.registry, y) {
      assert y in s.commands || y == x;
      assert y in s.commands ==> CommandOk(s.workers, s.registry, y);
    }
  }

  lemma RequestsTold(c: Config, routes: seq<Route>, commands: seq<Command>, reg: Registry, x: Command)
    requires RequestsOk(c, routes, commands, reg) && !x.Acquire?
    ensures RequestsOk(c, routes, commands + [x], reg)
  {
  }

  lemma RetirementAsked(c: Config, s: State, t: State, g: nat, w: Worker)
    requires Control(c, s) && OneWorker(s, t, g, w) && t.commands == s.commands + [BeginRetirement(w.key, g)]
    requires s.workers[g].mode.Serving? && Idle(s.workers[g]) && w == s.workers[g].(mode := Asking)
    requires Strong(s.handles, s.workers)
    ensures Control(c, t)
  {
    assert WorkerOk(c, s.workers[g]);
    WorkersAfter(c, s, t, g, w);
    EntriesAfter(s, t, g, w);
    SendersAfter(c, s, t, g, w);
    CommandsTold(c, s, t, g, w, BeginRetirement(w.key, g));
    RequestsTold(c, s.routes, s.commands, s.registry, BeginRetirement(w.key, g));
    LifeAsked(s, t, g, w);
  }

  lemma ControlAskRetirement(c: Config, s: State, g: nat)
    requires Control(c, s) && EnabledWorker(c, s, g, AskRetirement)
    ensures Control(c, ApplyWorker(c, s, g, AskRetirement))
  {
    RetirementAsked(c, s, ApplyWorker(c, s, g, AskRetirement), g, s.workers[g].(mode := Asking));
  }

  lemma LifeAsked(s: State, t: State, g: nat, w: Worker)
    requires LifeOk(s) && OneWorker(s, t, g, w) && w.mode.Asking? && Strong(s.handles, s.workers)
    ensures LifeOk(t)
  {
  }

  /** While a strong handle of its channel is left the registry is up. */
  lemma LifeNeedsRegistry(s: State)
    requires LifeOk(s) && Strong(s.handles, s.workers)
    ensures s.registryUp
    ensures forall h :: h in s.workers ==> !s.workers[h].mode.LastDrain?
  {
  }

  lemma ControlDrainWithoutRegistry(c: Config, s: State, g: nat)
    requires Control(c, s) && EnabledWorker(c, s, g, DrainWithoutRegistry)
    ensures Control(c, ApplyWorker(c, s, g, DrainWithoutRegistry))
  {
    var t, w := ApplyWorker(c, s, g, DrainWithoutRegistry), s.workers[g].(mode := LastDrain);
    WorkersAfter(c, s, t, g, w);
    EntriesAfter(s, t, g, w);
    SendersAfter(c, s, t, g, w);
    CommandsSilent(c, s, t, g, w);
    assert !Strong(t.handles, t.workers) by {
      assert forall h :: h in s.workers ==> !KeepsRegistry(s.workers[h].mode);
    }
  }

  /** A mode change no command speaks of. */
  lemma CommandsSilent(c: Config, s: State, t: State, g: nat, w: Worker)
    requires CommandsOk(s.workers, s.registry, s.commands) && OneWorker(s, t, g, w) && t.commands == s.commands
    requires !s.workers[g].mode.Asking? && !s.workers[g].mode.Done? && !w.mode.Asking? && !w.mode.Done?
    ensures CommandsOk(t.workers, t.registry, t.commands)
  {
  }

  lemma ControlReceiveAnswer(c: Config, s: State, g: nat)
    requires Control(c, s) && EnabledWorker(c, s, g, ReceiveAnswer)
    ensures Control(c, ApplyWorker(c, s, g, ReceiveAnswer))
  {
    var t, w := ApplyWorker(c, s, g, ReceiveAnswer), s.workers[g].(mode := Draining);
    assert WorkerOk(c, s.workers[g]);
    WorkersAfter(c, s, t, g, w);
    EntriesAfter(s, t, g, w);
    SendersAfter(c, s, t, g, w);
    CommandsSilent(c, s, t, g, w);
    LifeAnswered(s, t, g, w);
  }

  lemma LifeAnswered(s: State, t: State, g: nat, w: Worker)
    requires LifeOk(s) && OneWorker(s, t, g, w) && t.commands == s.commands
    requires s.workers[g].mode.Answered? && w.mode.Draining?
    ensures LifeOk(t)
  {
    assert KeepsRegistry(s.workers[g].mode);
    assert KeepsRegistry(t.workers[g].mode);
    LifeNeedsRegistry(s);
  }

  lemma ControlCloseWorker(c: Config, s: State, g: nat)
    requires Control(c, s) && EnabledWorker(c, s, g, CloseWorker)
    ensures Control(c, ApplyWorker(c, s, g, CloseWorker))
  {
    var t, w := ApplyWorker(c, s, g, CloseWorker), s.workers[g].(mode := Done);
    WorkersAfter(c, s, t, g, w);
    SendersAfter(c, s, t, g, w);
    EntryAtClose(s, g);
    EntriesAfter(s, t, g, w);
    if s.workers[g].mode.Draining? {
      CloseTells(c, s, t, g, w);
    } else {
      assert s.commands == [];
    }
    LifeFewer(s, t, g, w);
  }

  lemma CloseTells(c: Config, s: State, t: State, g: nat, w: Worker)
    requires Control(c, s) && OneWorker(s, t, g, w) && w == s.workers[g].(mode := Done)
    requires s.workers[g].mode.Draining? && SendersGone(s, g) && t.commands == s.commands + [Retired(w.key, g)]
    ensures s.registryUp && CommandsOk(t.workers, t.registry, t.commands)
    ensures RequestsOk(c, t.routes, t.commands, t.registry)
  {
    EntryAtClose(s, g);
    assert KeepsRegistry(s.workers[g].mode);
    LifeNeedsRegistry(s);
    CommandsTold(c, s, t, g, w, Retired(w.key, g));
    RequestsTold(c, s.routes, s.commands, s.registry, Retired(w.key, g));
  }

  /** A worker that finds its queue closed is retiring, or the registry is gone. */
  lemma EntryAtClose(s: State, g: nat)
    requires EntriesOk(s) && LifeOk(s) && SendersGone(s, g)
    requires g in s.workers && MayRun(s.workers[g].mode)
    ensures forall key :: key in s.registry.entries && s.registry.entries[key].gen == g ==>
              key == s.workers[g].key && s.registry.entries[key].Retiring?
    ensures s.workers[g].mode.Draining? ==> IsRetiring(s.registry, s.workers[g].key, g)
    ensures !s.workers[g].mode.Draining? ==> !s.registryUp
  {
  }

  lemma LifeFewer(s: State, t: State, g: nat, w: Worker)
    requires LifeOk(s) && OneWorker(s, t, g, w) && w.mode.Done?
    requires s.registryUp || t.commands == []
    ensures LifeOk(t)
  {
  }

  lemma ControlWorker(c: Config, s: State, g: nat, task: WorkerStep)
    requires Control(c, s) && EnabledWorker(c, s, g, task)
    ensures Control(c, ApplyWorker(c, s, g, task))
  {
    var t := ApplyWorker(c, s, g, task);
    assert WorkerOk(c, s.workers[g]);
    match task {
      case Start => ControlSameMode(c, s, t, g, t.workers[g]);
      case Emit => ControlSameMode(c, s, t, g, t.workers[g]);
      case Complete => ControlSameMode(c, s, t, g, t.workers[g]);
      case Panic => ControlSameMode(c, s, t, g, t.workers[g]);
      case AskRetirement => ControlAskRetirement(c, s, g);
      case DrainWithoutRegistry => ControlDrainWithoutRegistry(c, s, g);
      case ReceiveAnswer => ControlReceiveAnswer(c, s, g);
      case CloseWorker => ControlCloseWorker(c, s, g);
    }
  }

  lemma HeadCommand(workers: map<nat, Worker>, reg: Registry, commands: seq<Command>)
    requires CommandsOk(workers, reg, commands) && commands != []
    ensures commands[0] !in commands[1..] && Distinct(commands[1..])
    ensures forall x :: x in commands <==> x == commands[0] || x in commands[1..]
    ensures CommandOk(workers, reg, commands[0])
  {
  }

  /** The commands of workers when a request is taken off the queue. */
  lemma CommandsAfterAcquire(workers: map<nat, Worker>, reg: Registry, commands: seq<Command>)
    requires CommandsOk(workers, reg, commands) && commands != [] && commands[0].Acquire?
    ensures CommandsOk(workers, reg, commands[1..])
  {
  }

  /** Granting a sender of generation `gen`, a live worker of `key`, to requests for `key`. */
  lemma GrantOk(c: Config, s: State, t: State, key: Key, grants: seq<nat>, gen: nat)
    requires RoutesOk(c, s) && SendersOk(c, s) && t.routes == Grant(s.routes, grants, gen)
    requires forall g :: g in s.workers ==> g in t.workers && t.workers[g] == s.workers[g]
    requires gen in t.workers && !t.workers[gen].mode.Done? && t.workers[gen].key == key
    requires forall r :: r in grants ==> MayBeWaiting(c, s.routes, key, r)
    ensures RoutesOk(c, t) && SendersOk(c, t)
  {
  }

  /** Serving requests and taking commands off the queue leave the rest as it was. */
  lemma LifeServed(s: State, t: State)
    requires LifeOk(s) && t.handles == s.handles && t.registryUp == s.registryUp && t.workers == s.workers
    requires t.registry == s.registry && (s.commands == [] ==> t.commands == []) && |t.routes| == |s.routes|
    requires forall r :: 0 <= r < |s.routes| && Over(s.routes[r].phase) ==> Over(t.routes[r].phase)
    ensures LifeOk(t)
  {
  }

  /** Requests that were not granted are where they were. */
  lemma GrantKeepsWaiting(c: Config, routes: seq<Route>, grants: seq<nat>, gen: nat)
    ensures forall key, r: nat :: r !in grants ==>
              MayBeWaiting(c, Grant(routes, grants, gen), key, r) == MayBeWaiting(c, routes, key, r)
  {
  }

  /** The route whose request is at the head of the queue waits nowhere else. */
  lemma AcquireUnique(c: Config, s: State, key: Key, q: nat)
    requires Control(c, s) && s.commands != [] && s.commands[0] == Acquire(key, q)
    ensures q < |s.routes| && MayBeWaiting(c, s.routes, key, q)
    ensures forall other :: Acquire(other, q) !in s.commands[1..]
    ensures forall other :: !IsWaiter(s.registry, other, q)
  {
  }

  lemma RequestsGranted(c: Config, s: State, key: Key, q: nat, gen: nat)
    requires Control(c, s) && s.commands != [] && s.commands[0] == Acquire(key, q)
    ensures RequestsOk(c, Grant(s.routes, [q], gen), s.commands[1..], s.registry)
  {
    HeadCommand(s.workers, s.registry, s.commands);
    AcquireUnique(c, s, key, q);
    GrantKeepsWaiting(c, s.routes, [q], gen);
    var routes := Grant(s.routes, [q], gen);
    forall r: nat | r < |routes| && routes[r].phase.Waiting?
      ensures Pledged(c, s.commands[1..], s.registry, r, routes[r].phase.index)
    {
      assert Pledged(c, s.commands, s.registry, r, s.routes[r].phase.index);
    }
  }

  /** The registry answers the request at the head of its queue with a sender it has. */
  lemma GrantedControl(c: Config, s: State, t: State, key: Key, q: nat, gen: nat)
    requires Control(c, s) && s.commands != [] && s.commands[0] == Acquire(key, q)
    requires gen in s.workers && !s.workers[gen].mode.Done? && s.workers[gen].key == key
    requires t == s.(commands := s.commands[1..], routes := Grant(s.routes, [q], gen))
    ensures Control(c, t)
  {
    AcquireUnique(c, s, key, q);
    GrantOk(c, s, t, key, [q], gen);
    CommandsAfterAcquire(s.workers, s.registry, s.commands);
    RequestsGranted(c, s, key, q, gen);
    LifeServed(s, t);
  }

  lemma ControlAcquireActive(c: Config, s: State, key: Key, q: nat)
    requires Control(c, s) && s.registryUp && s.commands != [] && s.commands[0] == Acquire(key, q)
    requires key in s.registry.entries && s.registry.entries[key].Active?
    ensures Control(c, ApplyRegistry(s))
  {
    assert EntryOk(s.workers, key, s.registry.entries[key]);
    GrantedControl(c, s, ApplyRegistry(s), key, q, s.registry.entries[key].gen);
  }

  /** `t` is `s` after the request at the head of the queue joined the waiters of its key. */
  ghost predicate Joined(s: State, t: State, key: Key, q: nat) {
    && s.commands != [] && s.commands[0] == Acquire(key, q)
    && key in s.registry.entries && s.registry.entries[key].Retiring?
    && t == s.(commands := s.commands[1..], registry := ReactAcquire(s.registry, key, q).registry)
  }

  lemma RequestJoins(s: State, key: Key, q: nat)
    requires s.commands != [] && s.commands[0] == Acquire(key, q)
    requires key in s.registry.entries && s.registry.entries[key].Retiring?
    ensures Joined(s, ApplyRegistry(s), key, q)
  {
    assert ApplyRegistry(s).routes == s.routes;
  }

  /** A request finds its key retiring and joins the waiters. */
  lemma ControlJoined(c: Config, s: State, t: State, key: Key, q: nat)
    requires Control(c, s) && s.registryUp && Joined(s, t, key, q)
    ensures Control(c, t)
  {
    EntriesRewritten(s, t, key);
    CommandsAfterAcquire(s.workers, s.registry, s.commands);
    CommandsRewritten(s, t, key);
    RequestsJoined(c, s, t, key, q);
  }

  /** Only the entry of `key` changed, and it still names the same generation and state. */
  ghost predicate SameButWaiters(s: State, t: State, key: Key) {
    && key in s.registry.entries && key in t.registry.entries
    && t.registry.entries == s.registry.entries[key := t.registry.entries[key]]
    && s.registry.entries[key].Retiring? && t.registry.entries[key].Retiring?
    && s.registry.entries[key].gen == t.registry.entries[key].gen
    && t.workers == s.workers && t.registryUp == s.registryUp
  }

  lemma EntriesRewritten(s: State, t: State, key: Key)
    requires EntriesOk(s) && SameButWaiters(s, t, key)
    ensures EntriesOk(t)
  {
  }

  lemma CommandsRewritten(s: State, t: State, key: Key)
    requires CommandsOk(s.workers, s.registry, t.commands) && SameButWaiters(s, t, key)
    ensures CommandsOk(t.workers, t.registry, t.commands)
  {
  }

  lemma RequestsJoined(c: Config, s: State, t: State, key: Key, q: nat)
    requires Control(c, s) && s.registryUp && Joined(s, t, key, q)
    ensures RequestsOk(c, t.routes, t.commands, t.registry)
  {
    var reg, rest := t.registry, t.commands;
    HeadCommand(s.workers, s.registry, s.commands);
    AcquireUnique(c, s, key, q);
    WaitersJoined(s.registry, reg, key, q);
    forall r: nat | r < |s.routes| && s.routes[r].phase.Waiting?
      ensures Pledged(c, rest, reg, r, s.routes[r].phase.index)
    {
      assert Pledged(c, s.commands, s.registry, r, s.routes[r].phase.index);
    }
  }

  lemma WaitersJoined(reg: Registry, joined: Registry, key: Key, q: nat)
    requires key in reg.entries && reg.entries[key].Retiring? && !IsWaiter(reg, key, q)
    requires forall k :: k in reg.entries && reg.entries[k].Retiring? ==> Distinct(reg.entries[k].waiters)
    requires joined == ReactAcquire(reg, key, q).registry
    ensures forall k, r: nat :: IsWaiter(joined, k, r) == (IsWaiter(reg, k, r) || (k == key && r == q))
    ensures forall k :: k in joined.entries && joined.entries[k].Retiring? ==> Distinct(joined.entries[k].waiters)
  {
  }

  /** `t` is `s` after the registry spawned the next generation for `key`. */
  ghost predicate Spawned(s: State, t: State, key: Key) {
    var g := s.registry.nextGeneration;
    && t.workers == s.workers[g := Worker(key, Serving, [], None)] && t.current == s.current[key := g]
    && t.registry == Registry(s.registry.entries[key := Active(g)], g + 1)
    && t.registryUp && s.registryUp && t.handles == s.handles
    && forall h :: h in s.workers && s.workers[h].key == key ==> s.workers[h].mode.Done?
  }

  lemma WorkersSpawned(c: Config, s: State, t: State, key: Key)
    requires WorkersOk(c, s) && Spawned(s, t, key)
    ensures WorkersOk(c, t)
    ensures s.registry.nextGeneration !in s.workers
  {
  }

  lemma EntriesSpawned(c: Config, s: State, t: State, key: Key)
    requires WorkersOk(c, s) && EntriesOk(s) && Spawned(s, t, key)
    ensures EntriesOk(t)
  {
  }

  lemma LifeSpawned(c: Config, s: State, t: State, key: Key)
    requires WorkersOk(c, s) && LifeOk(s) && Spawned(s, t, key)
    requires |t.routes| == |s.routes|
    requires forall r :: 0 <= r < |s.routes| && Over(s.routes[r].phase) ==> Over(t.routes[r].phase)
    ensures LifeOk(t)
  {
  }

  /** No live worker belongs to a key without an entry. */
  lemma NoEntryNoWorker(s: State, key: Key)
    requires EntriesOk(s) && s.registryUp && key !in s.registry.entries
    ensures forall h :: h in s.workers && s.workers[h].key == key ==> s.workers[h].mode.Done?
  {
  }

  /** What a spawn keeps, apart from the routes and their requests. */
  lemma SpawnKeeps(c: Config, s: State, t: State, key: Key)
    requires WorkersOk(c, s) && EntriesOk(s) && LifeOk(s) && Spawned(s, t, key)
    requires key !in s.registry.entries && CommandsOk(s.workers, s.registry, t.commands)
    requires |t.routes| == |s.routes|
    requires forall r :: 0 <= r < |s.routes| && Over(s.routes[r].phase) ==> Over(t.routes[r].phase)
    ensures WorkersOk(c, t) && EntriesOk(t) && LifeOk(t) && CommandsOk(t.workers, t.registry, t.commands)
    ensures forall g :: g in s.workers ==> g in t.workers && t.workers[g] == s.workers[g]
  {
    WorkersSpawned(c, s, t, key);
    EntriesSpawned(c, s, t, key);
    LifeSpawned(c, s, t, key);
    CommandsSpawned(c, s, t, key);
  }

  lemma RequestSpawns(c: Config, s: State, key: Key, q: nat)
    requires EntriesOk(s) && s.registryUp && s.commands != [] && s.commands[0] == Acquire(key, q)
    requires key !in s.registry.entries
    ensures var t := ApplyRegistry(s);
            Spawned(s, t, key) && t.commands == s.commands[1..] && t.routes == Grant(s.routes, [q], s.registry.nextGeneration)
  {
    NoEntryNoWorker(s, key);
  }

  lemma ControlAcquireSpawns(c: Config, s: State, t: State, key: Key, q: nat)
    requires Control(c, s) && s.commands != [] && s.commands[0] == Acquire(key, q) && key !in s.registry.entries
    requires Spawned(s, t, key) && t.commands == s.commands[1..]
    requires t.routes == Grant(s.routes, [q], s.registry.nextGeneration)
    ensures Control(c, t)
  {
    CommandsAfterAcquire(s.workers, s.registry, s.commands);
    SpawnKeeps(c, s, t, key);
    SpawnRequests(c, s, t, key, q);
  }

  lemma SpawnRequests(c: Config, s: State, t: State, key: Key, q: nat)
    requires Control(c, s) && s.commands != [] && s.commands[0] == Acquire(key, q) && key !in s.registry.entries
    requires Spawned(s, t, key) && t.commands == s.commands[1..]
    requires t.routes == Grant(s.routes, [q], s.registry.nextGeneration)
    requires forall g :: g in s.workers ==> g in t.workers && t.workers[g] == s.workers[g]
    ensures RoutesOk(c, t) && SendersOk(c, t) && RequestsOk(c, t.routes, t.commands, t.registry)
  {
    AcquireUnique(c, s, key, q);
    GrantOk(c, s, t, key, [q], s.registry.nextGeneration);
    RequestsGranted(c, s, key, q, s.registry.nextGeneration);
    RequestsKept(c, t.routes, t.commands, s.registry, t.registry);
  }

  lemma CommandsSpawned(c: Config, s: State, t: State, key: Key)
    requires WorkersOk(c, s) && Spawned(s, t, key) && CommandsOk(s.workers, s.registry, t.commands)
    requires key !in s.registry.entries
    ensures CommandsOk(t.workers, t.registry, t.commands)
  {
  }

  lemma RequestsKept(
      c: Config, routes: seq<Route>, commands: seq<Command>, reg: Registry, next: Registry)
    requires RequestsOk(c, routes, commands, reg)
    requires forall k, r: nat :: IsWaiter(next, k, r) == IsWaiter(reg, k, r)
    requires forall k :: k in next.entries && next.entries[k].Retiring? ==> Distinct(next.entries[k].waiters)
    ensures RequestsOk(c, routes, commands, next)
  {
  }

  lemma RequestsPopped(c: Config, routes: seq<Route>, workers: map<nat, Worker>, commands: seq<Command>, reg: Registry)
    requires RequestsOk(c, routes, commands, reg) && CommandsOk(workers, reg, commands)
    requires commands != [] && !commands[0].Acquire?
    ensures RequestsOk(c, routes, commands[1..], reg)
  {
  }

  /** A retirement request is never stale: its generation is the active one. */
  lemma BeginFindsActive(c: Config, s: State, key: Key, g: nat)
    requires Control(c, s) && s.registryUp && s.commands != [] && s.commands[0] == BeginRetirement(key, g)
    ensures key in s.registry.entries && s.registry.entries[key] == Active(g)
    ensures IsMode(s.workers, key, g, Asking)
  {
    HeadCommand(s.workers, s.registry, s.commands);
    assert EntryOk(s.workers, key, s.registry.entries[key]);
  }

  lemma BeginLetsRetire(s: State, key: Key, g: nat)
    requires s.commands != [] && s.commands[0] == BeginRetirement(key, g)
    requires IsMode(s.workers, key, g, Asking) && key in s.registry.entries && s.registry.entries[key] == Active(g)
    ensures LetRetire(s, ApplyRegistry(s), key, g) && ApplyRegistry(s).commands == s.commands[1..]
  {
    assert ApplyRegistry(s).routes == s.routes;
  }

  lemma ControlBegin(c: Config, s: State, t: State, key: Key, g: nat)
    requires Control(c, s) && s.registryUp && s.commands != [] && s.commands[0] == BeginRetirement(key, g)
    requires LetRetire(s, t, key, g) && t.commands == s.commands[1..]
    ensures Control(c, t)
  {
    BeginWorkers(c, s, t, key, g);
    BeginSenders(c, s, t, key, g);
    BeginCommands(c, s, t, key, g);
    RequestsPopped(c, s.routes, s.workers, s.commands, s.registry);
    RequestsKept(c, s.routes, t.commands, s.registry, t.registry);
    LifeBegins(s, t, key, g);
  }

  lemma LifeBegins(s: State, t: State, key: Key, g: nat)
    requires LifeOk(s) && LetRetire(s, t, key, g) && s.registryUp
    ensures LifeOk(t)
  {
  }

  /** `t` is `s` after the registry let generation `g` retire. */
  ghost predicate LetRetire(s: State, t: State, key: Key, g: nat) {
    && IsMode(s.workers, key, g, Asking)
    && key in s.registry.entries && s.registry.entries[key] == Active(g)
    && t.workers == s.workers[g := s.workers[g].(mode := Answered(true))]
    && t.registry == s.registry.(entries := s.registry.entries[key := Retiring(g, [])])
    && t.routes == s.routes && t.current == s.current && t.registryUp == s.registryUp && t.handles == s.handles
  }

  lemma BeginWorkers(c: Config, s: State, t: State, key: Key, g: nat)
    requires WorkersOk(c, s) && EntriesOk(s) && LetRetire(s, t, key, g)
    ensures WorkersOk(c, t) && EntriesOk(t)
  {
  }

  lemma BeginSenders(c: Config, s: State, t: State, key: Key, g: nat)
    requires SendersOk(c, s) && LetRetire(s, t, key, g)
    ensures SendersOk(c, t)
  {
  }

  lemma BeginCommands(c: Config, s: State, t: State, key: Key, g: nat)
    requires CommandsOk(s.workers, s.registry, s.commands) && LetRetire(s, t, key, g)
    requires s.commands != [] && s.commands[0] == BeginRetirement(key, g) && t.commands == s.commands[1..]
    ensures CommandsOk(t.workers, t.registry, t.commands)
  {
    HeadCommand(s.workers, s.registry, s.commands);
    forall x | x in t.commands ensures CommandOk(t.workers, t.registry, x) {
      assert CommandOk(s.workers, s.registry, x);
    }
    forall k | k in t.registry.entries && RetiringDone(t.workers, t.registry.entries[k])
      ensures Retired(k, t.registry.entries[k].gen) in t.commands
    {
      assert RetiringDone(s.workers, s.registry.entries[k]);
    }
  }

  /** The retirement notice of a drained generation: its entry is still there, its queue is empty
      and nobody holds a sender for it. */
  lemma RetiredFindsDrained(c: Config, s: State, key: Key, g: nat)
    requires Control(c, s) && s.registryUp && s.commands != [] && s.commands[0] == Retired(key, g)
    ensures IsRetiring(s.registry, key, g) && IsMode(s.workers, key, g, Done)
    ensures s.workers[g].queue == [] && s.workers[g].running.None?
    ensures forall h :: h in s.workers && s.workers[h].key == key ==> s.workers[h].mode.Done?
    ensures forall r :: 0 <= r < |s.routes| ==> !Holds(s.routes[r].phase, g)
  {
    HeadCommand(s.workers, s.registry, s.commands);
    assert WorkerOk(c, s.workers[g]);
    forall r | 0 <= r < |s.routes| ensures !Holds(s.routes[r].phase, g) {
      assert SenderOk(c, s.workers, r, s.routes[r].phase);
    }
  }

  lemma CommandsRetired(s: State, t: State, key: Key, g: nat)
    requires CommandsOk(s.workers, s.registry, s.commands)
    requires s.commands != [] && s.commands[0] == Retired(key, g) && t.commands == s.commands[1..]
    requires IsRetiring(s.registry, key, g)
    requires t.registry.entries == s.registry.entries - {key} && t.workers == s.workers
    ensures CommandsOk(t.workers, t.registry, t.commands)
  {
    HeadCommand(s.workers, s.registry, s.commands);
    forall x | x in t.commands ensures CommandOk(t.workers, t.registry, x) {
      assert CommandOk(s.workers, s.registry, x);
    }
    forall k | k in t.registry.entries && RetiringDone(t.workers, t.registry.entries[k])
      ensures Retired(k, t.registry.entries[k].gen) in t.commands
    {
      assert RetiringDone(s.workers, s.registry.entries[k]);
    }
  }

  lemma EntriesRetired(c: Config, s: State, t: State, key: Key)
    requires EntriesOk(s) && t.workers == s.workers && t.registryUp
    requires s.registryUp && t.registry.entries == s.registry.entries - {key}
    requires forall h :: h in s.workers && s.workers[h].key == key ==> s.workers[h].mode.Done?
    ensures EntriesOk(t)
  {
  }

  /** The waiters of `key` are answered or were closed; every other request stays. */
  lemma RequestsServed(c: Config, s: State, key: Key, g: nat, grants: seq<nat>, gen: nat, next: Registry)
    requires Control(c, s) && s.registryUp && s.commands != [] && s.commands[0] == Retired(key, g)
    requires IsRetiring(s.registry, key, g)
    requires grants == OpenWaiters(s.registry.entries[key].waiters, OpenRequests(s))
    requires forall k, r: nat :: IsWaiter(next, k, r) == (k != key && IsWaiter(s.registry, k, r))
    requires forall k :: k in next.entries && next.entries[k].Retiring? ==> Distinct(next.entries[k].waiters)
    ensures RequestsOk(c, Grant(s.routes, grants, gen), s.commands[1..], next)
  {
    var routes, rest := Grant(s.routes, grants, gen), s.commands[1..];
    HeadCommand(s.workers, s.registry, s.commands);
    GrantKeepsWaiting(c, s.routes, grants, gen);
    forall r | r in grants ensures IsWaiter(s.registry, key, r) && !routes[r].phase.Waiting? {
      assert MayBeWaiting(c, s.routes, key, r);
    }
    forall k, r: nat | IsWaiter(next, k, r) ensures MayBeWaiting(c, routes, k, r) {
      assert MayBeWaiting(c, s.routes, k, r);
    }
    forall k, r: nat | Acquire(k, r) in rest ensures MayBeWaiting(c, routes, k, r) {
    }
    forall r: nat | r < |routes| && routes[r].phase.Waiting?
      ensures Pledged(c, rest, next, r, routes[r].phase.index)
    {
      assert Pledged(c, s.commands, s.registry, r, s.routes[r].phase.index);
    }
  }

  /** `s` without the entry of a retired generation and without its notice. */
  function Forget(s: State, key: Key): State
    requires s.commands != []
  {
    s.(commands := s.commands[1..], registry := s.registry.(entries := s.registry.entries - {key}))
  }

  lemma ForgetKeeps(c: Config, s: State, key: Key, g: nat)
    requires Control(c, s) && s.registryUp && s.commands != [] && s.commands[0] == Retired(key, g)
    ensures var t := Forget(s, key);
            WorkersOk(c, t) && EntriesOk(t) && LifeOk(t) && CommandsOk(t.workers, t.registry, t.commands)
  {
    RetiredFindsDrained(c, s, key, g);
    CommandsRetired(s, Forget(s, key), key, g);
    EntriesRetired(c, s, Forget(s, key), key);
  }

  lemma ControlRetiredUnclaimed(c: Config, s: State, key: Key, g: nat)
    requires Control(c, s) && s.registryUp && s.commands != [] && s.commands[0] == Retired(key, g)
    requires IsRetiring(s.registry, key, g)
    requires OpenWaiters(s.registry.entries[key].waiters, OpenRequests(s)) == []
    ensures Control(c, Forget(s, key))
  {
    ForgetKeeps(c, s, key, g);
    RequestsForgotten(c, s, key, g);
  }

  lemma RequestsForgotten(c: Config, s: State, key: Key, g: nat)
    requires Control(c, s) && s.registryUp && s.commands != [] && s.commands[0] == Retired(key, g)
    requires IsRetiring(s.registry, key, g)
    requires OpenWaiters(s.registry.entries[key].waiters, OpenRequests(s)) == []
    ensures RequestsOk(c, s.routes, s.commands[1..], Forget(s, key).registry)
  {
    assert Grant(s.routes, [], 0) == s.routes;
    RequestsServed(c, s, key, g, [], 0, Forget(s, key).registry);
  }

  lemma UnclaimedForgets(s: State, key: Key, g: nat)
    requires s.commands != [] && s.commands[0] == Retired(key, g) && IsRetiring(s.registry, key, g)
    requires OpenWaiters(s.registry.entries[key].waiters, OpenRequests(s)) == []
    ensures ApplyRegistry(s) == Forget(s, key)
  {
  }

  lemma ClaimedSpawns(s: State, key: Key, g: nat)
    requires s.registryUp && s.commands != [] && s.commands[0] == Retired(key, g)
    requires IsRetiring(s.registry, key, g)
    requires OpenWaiters(s.registry.entries[key].waiters, OpenRequests(s)) != []
    requires forall h :: h in s.workers && s.workers[h].key == key ==> s.workers[h].mode.Done?
    ensures var t, waiters := ApplyRegistry(s), OpenWaiters(s.registry.entries[key].waiters, OpenRequests(s));
            && Spawned(Forget(s, key), t, key) && t.commands == s.commands[1..]
            && t.routes == Grant(s.routes, waiters, s.registry.nextGeneration)
  {
    assert ApplyRegistry(s).registry.entries ==
           Forget(s, key).registry.entries[key := Active(s.registry.nextGeneration)];
  }

  /** `t` is `s` after the open waiters of a retired generation were served by the next one. */
  ghost predicate Claimed(s: State, t: State, key: Key, g: nat) {
    && s.registryUp && s.commands != [] && s.commands[0] == Retired(key, g) && IsRetiring(s.registry, key, g)
    && Spawned(Forget(s, key), t, key) && t.commands == s.commands[1..]
    && t.routes == Grant(s.routes, OpenWaiters(s.registry.entries[key].waiters, OpenRequests(s)), s.registry.nextGeneration)
  }

  lemma ClaimedRoutes(c: Config, s: State, t: State, key: Key, g: nat)
    requires Control(c, s) && Claimed(s, t, key, g)
    requires forall h :: h in s.workers ==> h in t.workers && t.workers[h] == s.workers[h]
    ensures RoutesOk(c, t) && SendersOk(c, t) && RequestsOk(c, t.routes, t.commands, t.registry)
  {
    var grants, gen := OpenWaiters(s.registry.entries[key].waiters, OpenRequests(s)), s.registry.nextGeneration;
    forall r | r in grants ensures MayBeWaiting(c, s.routes, key, r) {
      assert IsWaiter(s.registry, key, r);
    }
    GrantOk(c, s, t, key, grants, gen);
    RequestsServed(c, s, key, g, grants, gen, t.registry);
  }

  lemma ControlRetiredClaimed(c: Config, s: State, t: State, key: Key, g: nat)
    requires Control(c, s) && Claimed(s, t, key, g)
    ensures Control(c, t)
  {
    ForgetKeeps(c, s, key, g);
    SpawnKeeps(c, Forget(s, key), t, key);
    ClaimedRoutes(c, s, t, key, g);
  }

  lemma ControlRetired(c: Config, s: State, key: Key, g: nat)
    requires Control(c, s) && s.registryUp && s.commands != [] && s.commands[0] == Retired(key, g)
    ensures Control(c, ApplyRegistry(s))
  {
    RetiredFindsDrained(c, s, key, g);
    if OpenWaiters(s.registry.entries[key].waiters, OpenRequests(s)) == [] {
      UnclaimedForgets(s, key, g);
      ControlRetiredUnclaimed(c, s, key, g);
    } else {
      ClaimedSpawns(s, key, g);
      ControlRetiredClaimed(c, s, ApplyRegistry(s), key, g);
    }
  }

  lemma ControlStep(c: Config, s: State, step: Step)
    requires Control(c, s) && Enabled(c, s, step)
    ensures Control(c, Apply(c, s, step))
  {
    match step {
      case OfRoute(r, act) => ControlRoute(c, s, r, act);
      case OfWorker(g, task) => ControlWorker(c, s, g, task);
      case HandleCommand =>
        match s.commands[0] {
          case Acquire(key, q) =>
            if key !in s.registry.entries {
              RequestSpawns(c, s, key, q);
              ControlAcquireSpawns(c, s, ApplyRegistry(s), key, q);
            } else if s.registry.entries[key].Active? {
              ControlAcquireActive(c, s, key, q);
            } else {
              RequestJoins(s, key, q);
              ControlJoined(c, s, ApplyRegistry(s), key, q);
            }
          case BeginRetirement(key, g) =>
            BeginFindsActive(c, s, key, g);
            BeginLetsRetire(s, key, g);
            ControlBegin(c, s, ApplyRegistry(s), key, g);
          case Retired(key, g) => ControlRetired(c, s, key, g);
        }
      case DropHandles => ControlDropHandles(c, s);
      case StopRegistry => ControlStopRegistry(c, s);
    }
  }

  lemma ControlDropHandles(c: Config, s: State)
    requires Control(c, s) && Enabled(c, s, DropHandles)
    ensures Control(c, Apply(c, s, DropHandles))
  {
  }

  lemma ControlStopRegistry(c: Config, s: State)
    requires Control(c, s) && Enabled(c, s, StopRegistry)
    ensures Control(c, Apply(c, s, StopRegistry))
  {
  }
}
