/** The keyed partition scheduler and the route loops that use it, as a transition system.

    One step is one atomic action of one task: a route loop, the registry actor, or the worker
    of one generation. Idle timeouts, panics, cancellations and the order in which tasks run are
    chosen freely. `current`, `runs` and `log` only record what happened. */
module PartitionModel {
  import opened Options
  import opened RouteJob
  import opened PartitionRegistry

  /** `key` is what the resolver makes of the message; `None` is a resolution failure (an empty
      key is one). `effects` is what processing the message emits if nothing panics. */
  datatype Message = Message(key: Option<Key>, effects: seq<Effect>)

  datatype RouteConfig = RouteConfig(source: seq<Message>)

  /** What processing a message emits: the script of its job, or, when no key was resolved, the
      failure path that the route loop runs inline. */
  function EffectsOf(b: Binding, key: Option<Key>, o: Outcome): seq<Effect> {
    if key.Some? then Script(b, o) else FailAndSettle(b, o, false)
  }

  /** Routes sharing one `Partitioner`, and its per-key queue capacity. */
  datatype Config = Config(capacity: nat, routes: seq<RouteConfig>)

  datatype Job = Job(route: nat, index: nat)

  datatype Event = Event(job: Job, effect: Effect)

  predicate ValidJob(c: Config, job: Job) {
    job.route < |c.routes| && job.index < |c.routes[job.route].source|
  }

  function MessageOf(c: Config, job: Job): Message
    requires ValidJob(c, job)
  {
    c.routes[job.route].source[job.index]
  }

  function KeyOf(c: Config, job: Job): Option<Key> {
    if ValidJob(c, job) then MessageOf(c, job).key else None
  }

  function JobScript(c: Config, job: Job): seq<Effect>
    requires ValidJob(c, job)
  {
    MessageOf(c, job).effects
  }

  datatype Phase =
    | Polling
    | Inline(index: nat, done: nat)
    | Submitting(index: nat)
    | Waiting(index: nat)
    | Granted(index: nat, gen: nat)
    | Sending(index: nat, gen: nat)
    | Finished
    | Aborted(lost: Option<nat>)

  /** `taken` messages were read; `pending` holds the submitted ones whose completion the loop has
      not yet consumed. */
  datatype Route = Route(taken: nat, open: bool, pending: set<nat>, phase: Phase)

  datatype Mode = Serving | Asking | Answered(granted: bool) | Draining | LastDrain | Done

  datatype Progress = Progress(job: Job, done: nat)

  datatype Worker = Worker(key: Key, mode: Mode, queue: seq<Job>, running: Option<Progress>)

  datatype Ending = Unfinished | Completed | Panicked

  /** A job a worker has started, how many of its effects it emitted and how it ended. */
  datatype Run = Run(job: Job, done: nat, ending: Ending)

  datatype State = State(
    routes: seq<Route>,
    registry: Registry,
    commands: seq<Command>,
    registryUp: bool,
    handles: bool,
    workers: map<nat, Worker>,
    completions: multiset<Job>,
    current: map<Key, nat>,
    runs: map<Key, seq<Run>>,
    log: seq<Event>)

  function Init(c: Config): State {
    State(seq(|c.routes|, _ => Route(0, true, {}, Polling)), Registry(map[], 1), [], true, true,
          map[], multiset{}, map[], map[], [])
  }

  function RunsOf(s: State, key: Key): seq<Run> {
    if key in s.runs then s.runs[key] else []
  }

  predicate Over(p: Phase) {
    p.Finished? || p.Aborted?
  }

  /** The route holds a sender of generation `gen`, in its hands or in its reply slot. */
  predicate Holds(p: Phase, gen: nat) {
    (p.Granted? || p.Sending?) && p.gen == gen
  }

  /** Every sender of the generation is gone, so its receiver reports the end of the queue. */
  ghost predicate SendersGone(s: State, gen: nat) {
    && (forall key :: key in s.registry.entries ==> s.registry.entries[key] != Active(gen))
    && (forall r :: 0 <= r < |s.routes| ==> !Holds(s.routes[r].phase, gen))
  }

  predicate KeepsRegistry(m: Mode) {
    m.Asking? || m.Answered? || m.Draining?
  }

  /** Some strong handle of the registry's command channel is left. */
  ghost predicate Strong(handles: bool, workers: map<nat, Worker>) {
    handles || exists g :: g in workers && KeepsRegistry(workers[g].mode)
  }

  datatype RouteStep =
    | Take
    | EmitInline
    | EndInline
    | SendAcquire
    | ReceiveSender
    | Send
    | SendFails
    | PollPending(index: nat)
    | CloseSource
    | FinishRoute
    | AbortRoute

  datatype WorkerStep =
    | Start
    | Emit
    | Complete
    | Panic
    | AskRetirement
    | DrainWithoutRegistry
    | ReceiveAnswer
    | CloseWorker

  datatype Step =
    | OfRoute(r: nat, act: RouteStep)
    | OfWorker(g: nat, task: WorkerStep)
    | HandleCommand
    | DropHandles
    | StopRegistry

  predicate InHand(p: Phase) {
    p.Submitting? || p.Waiting? || p.Granted? || p.Sending?
  }

  predicate Idle(w: Worker) {
    w.running.None? && (w.mode.Serving? || w.mode.Draining? || w.mode.LastDrain?)
  }

  predicate Busy(c: Config, w: Worker) {
    w.running.Some? && ValidJob(c, w.running.value.job)
  }

  /** The inline failure path of a route is running, with `done` effects out. */
  predicate InlineAt(c: Config, r: nat, p: Phase) {
    p.Inline? && ValidJob(c, Job(r, p.index)) && p.done <= |JobScript(c, Job(r, p.index))|
  }

  predicate Room(c: Config, s: State, gen: nat) {
    gen in s.workers && !s.workers[gen].mode.Done? && |s.workers[gen].queue| < c.capacity
  }

  predicate EnabledRoute(c: Config, s: State, r: nat, act: RouteStep)
    requires |s.routes| == |c.routes|
  {
    r < |s.routes| &&
    var route := s.routes[r];
    var p := route.phase;
    match act
    case Take => p.Polling? && route.open && route.taken < |c.routes[r].source|
    case EmitInline => InlineAt(c, r, p) && p.done < |JobScript(c, Job(r, p.index))|
    case EndInline => InlineAt(c, r, p) && p.done == |JobScript(c, Job(r, p.index))|
    case SendAcquire => p.Submitting? && KeyOf(c, Job(r, p.index)).Some?
    case ReceiveSender => p.Granted?
    case Send => p.Sending? && Room(c, s, p.gen)
    case SendFails => p.Sending? && (p.gen in s.workers ==> s.workers[p.gen].mode.Done?)
    case PollPending(index) => p.Polling? && index in route.pending && Job(r, index) in s.completions
    case CloseSource => p.Polling? && route.open && route.taken == |c.routes[r].source|
    case FinishRoute => p.Polling? && !route.open && route.pending == {}
    case AbortRoute => !Over(p)
  }

  ghost predicate EnabledWorker(c: Config, s: State, g: nat, task: WorkerStep) {
    g in s.workers &&
    var w := s.workers[g];
    match task
    case Start => Idle(w) && w.queue != []
    case Emit => Busy(c, w) && w.running.value.done < |JobScript(c, w.running.value.job)|
    case Complete => Busy(c, w) && w.running.value.done == |JobScript(c, w.running.value.job)|
    case Panic => Busy(c, w)
    case AskRetirement => Idle(w) && w.mode.Serving? && Strong(s.handles, s.workers)
    case DrainWithoutRegistry => Idle(w) && w.mode.Serving? && !Strong(s.handles, s.workers)
    case ReceiveAnswer => w.mode.Answered?
    case CloseWorker => Idle(w) && w.queue == [] && SendersGone(s, g)
  }

  ghost predicate Enabled(c: Config, s: State, step: Step)
    requires |s.routes| == |c.routes|
  {
    match step
    case OfRoute(r, act) => EnabledRoute(c, s, r, act)
    case OfWorker(g, task) => EnabledWorker(c, s, g, task)
    case HandleCommand => s.registryUp && s.commands != []
    case DropHandles => s.handles && forall r :: 0 <= r < |s.routes| ==> Over(s.routes[r].phase)
    case StopRegistry => s.registryUp && s.commands == [] && !Strong(s.handles, s.workers)
  }

  function SetPhase(s: State, r: nat, p: Phase): State
    requires r < |s.routes|
  {
    s.(routes := s.routes[r := s.routes[r].(phase := p)])
  }

  function SetWorker(s: State, g: nat, w: Worker): State {
    s.(workers := s.workers[g := w])
  }

  function ApplyRoute(c: Config, s: State, r: nat, act: RouteStep): State
    requires |s.routes| == |c.routes| && EnabledRoute(c, s, r, act)
  {
    var route := s.routes[r];
    var p := route.phase;
    match act
    case Take =>
      var i := route.taken;
      var next := if c.routes[r].source[i].key.Some? then Submitting(i) else Inline(i, 0);
      s.(routes := s.routes[r := route.(taken := i + 1, phase := next)])
    case EmitInline =>
      var job := Job(r, p.index);
      SetPhase(s, r, Inline(p.index, p.done + 1)).(log := s.log + [Event(job, JobScript(c, job)[p.done])])
    case EndInline => SetPhase(s, r, Polling)
    case SendAcquire =>
      SetPhase(s, r, Waiting(p.index)).(commands := s.commands + [Acquire(KeyOf(c, Job(r, p.index)).value, r)])
    case ReceiveSender => SetPhase(s, r, Sending(p.index, p.gen))
    case Send =>
      var w := s.workers[p.gen];
      s.(routes := s.routes[r := route.(pending := route.pending + {p.index}, phase := Polling)],
         workers := s.workers[p.gen := w.(queue := w.queue + [Job(r, p.index)])])
    case SendFails => SetPhase(s, r, Submitting(p.index))
    case PollPending(index) => s.(routes := s.routes[r := route.(pending := route.pending - {index})])
    case CloseSource => s.(routes := s.routes[r := route.(open := false)])
    case FinishRoute => SetPhase(s, r, Finished)
    case AbortRoute => SetPhase(s, r, Aborted(if InHand(p) then Some(p.index) else None))
  }

  /** The run now under way for `key` becomes `run`. */
  function Retouch(s: State, key: Key, run: Run): map<Key, seq<Run>> {
    var runs := RunsOf(s, key);
    if runs == [] then s.runs else s.runs[key := runs[|runs| - 1 := run]]
  }

  function ApplyWorker(c: Config, s: State, g: nat, task: WorkerStep): State
    requires EnabledWorker(c, s, g, task)
  {
    var w := s.workers[g];
    match task
    case Start =>
      var job := w.queue[0];
      SetWorker(s, g, w.(queue := w.queue[1..], running := Some(Progress(job, 0))))
        .(runs := s.runs[w.key := RunsOf(s, w.key) + [Run(job, 0, Unfinished)]])
    case Emit =>
      var p := w.running.value;
      SetWorker(s, g, w.(running := Some(Progress(p.job, p.done + 1))))
        .(runs := Retouch(s, w.key, Run(p.job, p.done + 1, Unfinished)),
          log := s.log + [Event(p.job, JobScript(c, p.job)[p.done])])
    case Complete => EndRun(s, g, Completed)
    case Panic => EndRun(s, g, Panicked)
    case AskRetirement =>
      SetWorker(s, g, w.(mode := Asking)).(commands := s.commands + [BeginRetirement(w.key, g)])
    case DrainWithoutRegistry => SetWorker(s, g, w.(mode := LastDrain))
    case ReceiveAnswer => SetWorker(s, g, w.(mode := if w.mode.granted then Draining else Serving))
    case CloseWorker =>
      var tell := if w.mode.Draining? then [Retired(w.key, g)] else [];
      SetWorker(s, g, w.(mode := Done)).(commands := s.commands + tell)
  }

  /** The running job is over, one way or the other, and its completion fires. */
  function EndRun(s: State, g: nat, ending: Ending): State
    requires g in s.workers && s.workers[g].running.Some?
  {
    var w := s.workers[g];
    var p := w.running.value;
    SetWorker(s, g, w.(running := None))
      .(runs := Retouch(s, w.key, Run(p.job, p.done, ending)), completions := s.completions + multiset{p.job})
  }

  /** Requests whose reply channel still has a receiver. */
  function OpenRequests(s: State): set<nat> {
    set r | 0 <= r < |s.routes| && s.routes[r].phase.Waiting?
  }

  function Grant(routes: seq<Route>, grants: seq<nat>, gen: nat): (granted: seq<Route>)
    ensures |granted| == |routes|
    ensures forall r :: 0 <= r < |routes| ==>
              granted[r] == if r in grants && routes[r].phase.Waiting?
                            then routes[r].(phase := Granted(routes[r].phase.index, gen)) else routes[r]
  {
    seq(|routes|, r requires 0 <= r < |routes| =>
      if r in grants && routes[r].phase.Waiting?
      then routes[r].(phase := Granted(routes[r].phase.index, gen)) else routes[r])
  }

  function ApplyReaction(s: State, key: Key, x: Reaction): State {
    var t := s.(registry := x.registry, routes := Grant(s.routes, x.grants, x.gen));
    var t := if x.spawned
      then t.(workers := t.workers[x.gen := Worker(key, Serving, [], None)], current := t.current[key := x.gen])
      else t;
    if x.answer.Some? && x.gen in t.workers
    then t.(workers := t.workers[x.gen := t.workers[x.gen].(mode := Answered(x.answer.value))])
    else t
  }

  function ApplyRegistry(s: State): State
    requires s.commands != []
  {
    var command := s.commands[0];
    ApplyReaction(s.(commands := s.commands[1..]), command.key, React(s.registry, command, OpenRequests(s)))
  }

  ghost function Apply(c: Config, s: State, step: Step): State
    requires |s.routes| == |c.routes| && Enabled(c, s, step)
  {
    match step
    case OfRoute(r, act) => ApplyRoute(c, s, r, act)
    case OfWorker(g, task) => ApplyWorker(c, s, g, task)
    case HandleCommand => ApplyRegistry(s)
    case DropHandles => s.(handles := false)
    case StopRegistry => s.(registryUp := false, registry := s.registry.(entries := map[]))
  }

  /** `s` is reached from `from` by `steps`. */
  ghost predicate Reaches(c: Config, from: State, steps: seq<Step>, s: State)
    decreases |steps|
  {
    if steps == [] then s == from
    else
      |from.routes| == |c.routes| && Enabled(c, from, steps[0])
      && Reaches(c, Apply(c, from, steps[0]), steps[1..], s)
  }
}
