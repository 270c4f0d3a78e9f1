/** Retirement terminates: a generation that was let go drains in boundedly many of its own steps,
    is never handed out again, and its waiters get the next generation. */
module PartitionRetirement {
  import opened Options
  import opened RouteJob
  import opened PartitionRegistry
  import opened PartitionModel
  import opened PartitionControl
  import opened PartitionJobs
  import opened PartitionTheorems

  /** The registry has let generation `g` go. */
  predicate Leaving(workers: map<nat, Worker>, g: nat) {
    g in workers && (workers[g].mode.Answered? || workers[g].mode.Draining? || workers[g].mode.Done?)
  }

  /** A step of the worker of `g`, or of a route using a sender of `g`. */
  predicate StepOf(s: State, step: Step, g: nat) {
    match step
    case OfWorker(h, _) => h == g
    case OfRoute(r, act) => r < |s.routes| && Holds(s.routes[r].phase, g) && (act.ReceiveSender? || act.Send?)
    case _ => false
  }

  function JobWeight(c: Config, job: Job): nat {
    3 + if ValidJob(c, job) then |JobScript(c, job)| else 0
  }

  function SenderWeight(c: Config, r: nat, p: Phase, g: nat): nat {
    if !Holds(p, g) then 0 else JobWeight(c, Job(r, p.index)) + if p.Granted? then 2 else 1
  }

  function SendersWeight(c: Config, routes: seq<Route>, g: nat, n: nat): nat
    requires n <= |routes|
  {
    if n == 0 then 0
    else SendersWeight(c, routes, g, n - 1) + SenderWeight(c, n - 1, routes[n - 1].phase, g)
  }

  function QueueWeight(c: Config, queue: seq<Job>): nat {
    if queue == [] then 0 else JobWeight(c, queue[0]) + QueueWeight(c, queue[1..])
  }

  function WorkerWeight(c: Config, w: Worker): nat {
    QueueWeight(c, w.queue)
    + (match w.running
       case Some(p) =>
         if ValidJob(c, p.job) && p.done <= |JobScript(c, p.job)| then |JobScript(c, p.job)| - p.done + 1 else 1
       case None => 0)
    + if w.mode.Answered? then 2 else if w.mode.Done? then 0 else 1
  }

  /** What generation `g` still has to do: outstanding senders, queued jobs and the running job. */
  function Remaining(c: Config, s: State, g: nat): nat {
    SendersWeight(c, s.routes, g, |s.routes|) + if g in s.workers then WorkerWeight(c, s.workers[g]) else 0
  }

  lemma {:induction false} SendersWeightKept(c: Config, routes: seq<Route>, moved: seq<Route>, g: nat, n: nat)
    requires n <= |routes| == |moved|
    requires forall r :: 0 <= r < n ==>
               SenderWeight(c, r, moved[r].phase, g) <= SenderWeight(c, r, routes[r].phase, g)
    ensures SendersWeight(c, moved, g, n) <= SendersWeight(c, routes, g, n)
  {
    if n > 0 {
      SendersWeightKept(c, routes, moved, g, n - 1);
    }
  }

  lemma {:induction false} SendersWeightMoved(
      c: Config, routes: seq<Route>, r: nat, route: Route, g: nat, n: nat)
    requires r < n <= |routes|
    ensures SendersWeight(c, routes[r := route], g, n) + SenderWeight(c, r, routes[r].phase, g)
         == SendersWeight(c, routes, g, n) + SenderWeight(c, r, route.phase, g)
  {
    if r < n - 1 {
      SendersWeightMoved(c, routes, r, route, g, n - 1);
    } else {
      SendersWeightKept(c, routes, routes[r := route], g, n - 1);
      SendersWeightKept(c, routes[r := route], routes, g, n - 1);
    }
  }

  lemma {:induction false} QueueWeightAppend(c: Config, queue: seq<Job>, job: Job)
    ensures QueueWeight(c, queue + [job]) == QueueWeight(c, queue) + JobWeight(c, job)
  {
    if queue == [] {
      assert QueueWeight(c, [job]) == JobWeight(c, job) + QueueWeight(c, [job][1..]);
    } else {
      QueueWeightAppend(c, queue[1..], job);
      assert (queue + [job])[1..] == queue[1..] + [job];
    }
  }

  /** What a step does to a leaving generation. */
  ghost predicate Closer(c: Config, s: State, t: State, g: nat, own: bool) {
    && Leaving(t.workers, g) && |t.routes| == |s.routes|
    && Remaining(c, t, g) + (if own then 1 else 0) <= Remaining(c, s, g)
    && forall r :: 0 <= r < |s.routes| && Holds(t.routes[r].phase, g) ==> Holds(s.routes[r].phase, g)
  }

  /** The worker of a leaving generation gets closer to the end with every step it takes. */
  lemma WorkerDrains(c: Config, s: State, g: nat, task: WorkerStep)
    requires WorkersOk(c, s) && RunsOk(c, s) && Leaving(s.workers, g) && EnabledWorker(c, s, g, task)
    ensures var t := ApplyWorker(c, s, g, task);
            && t.routes == s.routes && Leaving(t.workers, g)
            && WorkerWeight(c, t.workers[g]) < WorkerWeight(c, s.workers[g])
  {
  }

  lemma SendDrains(c: Config, s: State, r: nat, g: nat)
    requires |s.routes| == |c.routes| && EnabledRoute(c, s, r, Send) && Leaving(s.workers, g)
    ensures Closer(c, s, ApplyRoute(c, s, r, Send), g, StepOf(s, OfRoute(r, Send), g))
  {
    var t := ApplyRoute(c, s, r, Send);
    SendersWeightMoved(c, s.routes, r, t.routes[r], g, |s.routes|);
    QueueWeightAppend(c, s.workers[s.routes[r].phase.gen].queue, Job(r, s.routes[r].phase.index));
  }

  lemma RouteDrains(c: Config, s: State, r: nat, act: RouteStep, g: nat)
    requires |s.routes| == |c.routes| && EnabledRoute(c, s, r, act) && Leaving(s.workers, g)
    ensures Closer(c, s, ApplyRoute(c, s, r, act), g, StepOf(s, OfRoute(r, act), g))
  {
    if act.Send? {
      SendDrains(c, s, r, g);
    } else {
      var t := ApplyRoute(c, s, r, act);
      assert t.workers == s.workers && t.routes == s.routes[r := t.routes[r]];
      SendersWeightMoved(c, s.routes, r, t.routes[r], g, |s.routes|);
    }
  }

  /** A reaction that neither spawns `g` nor hands it out nor answers it leaves it alone. */
  ghost predicate LeftAlone(s: State, t: State, g: nat) {
    && g in s.workers && g in t.workers && t.workers[g] == s.workers[g] && |t.routes| == |s.routes|
    && forall r :: 0 <= r < |s.routes| && Holds(t.routes[r].phase, g) ==> t.routes[r] == s.routes[r]
  }

  lemma ReactionLeavesAlone(s: State, key: Key, x: Reaction, g: nat)
    requires g in s.workers && (x.gen != g || (x.grants == [] && !x.spawned && x.answer.None?))
    ensures LeftAlone(s, ApplyReaction(s, key, x), g)
  {
  }

  lemma AcquireGivesAnother(s: State, key: Key, r: nat, g: nat)
    requires EntriesOk(s) && s.registryUp && Leaving(s.workers, g) && g < s.registry.nextGeneration
    ensures ReactAcquire(s.registry, key, r).gen != g || ReactAcquire(s.registry, key, r).grants == []
  {
    if key in s.registry.entries {
      assert EntryOk(s.workers, key, s.registry.entries[key]);
    }
  }

  lemma RetiredGivesNew(reg: Registry, key: Key, h: nat, open: set<nat>, g: nat)
    requires g < reg.nextGeneration
    ensures var x := ReactRetired(reg, key, h, open); x.gen != g || (x.grants == [] && !x.spawned && x.answer.None?)
  {
  }

  lemma ReactionOf(c: Config, s: State, g: nat)
    requires Control(c, s) && s.registryUp && s.commands != [] && Leaving(s.workers, g)
    ensures var x := React(s.registry, s.commands[0], OpenRequests(s));
            x.gen != g || (x.grants == [] && !x.spawned && x.answer.None?)
  {
    match s.commands[0] {
      case Acquire(key, r) => AcquireGivesAnother(s, key, r, g);
      case BeginRetirement(key, h) => BeginFindsActive(c, s, key, h);
      case Retired(key, h) => RetiredGivesNew(s.registry, key, h, OpenRequests(s), g);
    }
  }

  /** The registry never hands out a leaving generation and never touches its worker. */
  lemma RegistryLeavesAlone(c: Config, s: State, g: nat)
    requires Control(c, s) && s.registryUp && s.commands != [] && Leaving(s.workers, g)
    ensures LeftAlone(s, ApplyRegistry(s), g)
  {
    ReactionOf(c, s, g);
    ReactionLeavesAlone(s.(commands := s.commands[1..]), s.commands[0].key,
                        React(s.registry, s.commands[0], OpenRequests(s)), g);
  }

  lemma RegistryDrains(c: Config, s: State, g: nat)
    requires Control(c, s) && s.registryUp && s.commands != [] && Leaving(s.workers, g)
    ensures Closer(c, s, ApplyRegistry(s), g, false)
  {
    RegistryLeavesAlone(c, s, g);
    SendersWeightKept(c, s.routes, ApplyRegistry(s).routes, g, |s.routes|);
  }

  /** Every step of a leaving generation brings its end closer, no other step moves it away, and
      nobody gets a sender of it any more. */
  lemma RetirementProgresses(c: Config, s: State, step: Step, g: nat)
    requires Inv(c, s) && Enabled(c, s, step) && Leaving(s.workers, g)
    ensures Closer(c, s, Apply(c, s, step), g, StepOf(s, step, g))
  {
    match step {
      case OfRoute(r, act) => RouteDrains(c, s, r, act, g);
      case OfWorker(h, task) =>
        if h == g {
          WorkerDrains(c, s, g, task);
          SameRoutesCloser(c, s, ApplyWorker(c, s, g, task), g);
        } else {
          OtherWorker(c, s, h, task, g);
        }
      case HandleCommand => RegistryDrains(c, s, g);
      case DropHandles =>
      case StopRegistry =>
    }
  }

  lemma SameRoutesCloser(c: Config, s: State, t: State, g: nat)
    requires t.routes == s.routes && g in s.workers && Leaving(t.workers, g)
    requires WorkerWeight(c, t.workers[g]) < WorkerWeight(c, s.workers[g])
    ensures Closer(c, s, t, g, true)
  {
  }

  lemma OtherWorker(c: Config, s: State, h: nat, task: WorkerStep, g: nat)
    requires EnabledWorker(c, s, h, task) && Leaving(s.workers, g) && h != g
    ensures Closer(c, s, ApplyWorker(c, s, h, task), g, false)
  {
  }

  /** How many of the steps of a run belong to generation `g`. */
  ghost function StepsOf(c: Config, from: State, steps: seq<Step>, s: State, g: nat): nat
    requires Reaches(c, from, steps, s)
    decreases |steps|
  {
    if steps == [] then 0
    else
      (if StepOf(from, steps[0], g) then 1 else 0) + StepsOf(c, Apply(c, from, steps[0]), steps[1..], s, g)
  }

  /** From the moment a generation is let go, no run contains more of its steps than it had work
      left, however long the run is and whatever else happens in it. */
  lemma {:induction false} RetirementTerminates(c: Config, from: State, steps: seq<Step>, s: State, g: nat)
    requires Inv(c, from) && Leaving(from.workers, g) && Reaches(c, from, steps, s)
    ensures Leaving(s.workers, g) && StepsOf(c, from, steps, s, g) + Remaining(c, s, g) <= Remaining(c, from, g)
    decreases |steps|
  {
    if steps != [] {
      RetirementProgresses(c, from, steps[0], g);
      InvStep(c, from, steps[0]);
      RetirementTerminates(c, Apply(c, from, steps[0]), steps[1..], s, g);
    }
  }

  /** The step a leaving generation can take now. */
  function NextStep(c: Config, s: State, g: nat, holder: Option<nat>): Step
    requires g in s.workers
  {
    var w := s.workers[g];
    if w.mode.Answered? then OfWorker(g, ReceiveAnswer)
    else if w.running.Some? then
      var p := w.running.value;
      OfWorker(g, if ValidJob(c, p.job) && p.done < |JobScript(c, p.job)| then Emit else Complete)
    else if w.queue != [] then OfWorker(g, Start)
    else match holder
      case Some(r) =>
        OfRoute(r, if r < |s.routes| && s.routes[r].phase.Granted? then ReceiveSender else Send)
      case None => OfWorker(g, CloseWorker)
  }

  /** A leaving generation that is not done can always take a step, panics aside: it never stalls. */
  lemma RetirementNeverStalls(c: Config, s: State, g: nat)
    requires Inv(c, s) && c.capacity > 0 && Leaving(s.workers, g) && !s.workers[g].mode.Done?
    ensures exists step :: Enabled(c, s, step) && StepOf(s, step, g) && step != OfWorker(g, Panic)
  {
    if r :| 0 <= r < |s.routes| && Holds(s.routes[r].phase, g) {
      NextStepEnabled(c, s, g, Some(r));
    } else {
      NextStepEnabled(c, s, g, None);
    }
  }

  lemma NextStepEnabled(c: Config, s: State, g: nat, holder: Option<nat>)
    requires WorkersOk(c, s) && EntriesOk(s) && RunsOk(c, s) && |s.routes| == |c.routes|
    requires c.capacity > 0 && Leaving(s.workers, g) && !s.workers[g].mode.Done?
    requires match holder
             case Some(r) => r < |s.routes| && Holds(s.routes[r].phase, g)
             case None => forall r :: 0 <= r < |s.routes| ==> !Holds(s.routes[r].phase, g)
    ensures var step := NextStep(c, s, g, holder);
            Enabled(c, s, step) && StepOf(s, step, g) && step != OfWorker(g, Panic)
  {
    var w := s.workers[g];
    assert WorkerOk(c, w);
    if w.running.Some? {
      assert RunsAt(c, RunsOf(s, w.key), RunningOf(s.current, s.workers, w.key));
    }
    forall key | key in s.registry.entries ensures s.registry.entries[key] != Active(g) {
      assert EntryOk(s.workers, key, s.registry.entries[key]);
    }
  }

  /** A step of a route leaves the registry, other routes and the commands sent so far alone. */
  lemma RouteAround(c: Config, s: State, r: nat, act: RouteStep)
    requires |s.routes| == |c.routes| && EnabledRoute(c, s, r, act)
    ensures var t := ApplyRoute(c, s, r, act);
            && s.commands <= t.commands && t.registry == s.registry && |t.routes| == |s.routes|
            && forall q :: 0 <= q < |s.routes| && q != r ==> t.routes[q] == s.routes[q]
  {
  }

  lemma WorkerAround(c: Config, s: State, g: nat, task: WorkerStep)
    requires EnabledWorker(c, s, g, task)
    ensures var t := ApplyWorker(c, s, g, task);
            s.commands <= t.commands && t.registry == s.registry && t.routes == s.routes
  {
  }

  /** The notice of a drained generation moves up the command queue with every command handled and
      is not held up by anything else. */
  lemma NoticeAdvances(c: Config, s: State, step: Step, p: nat)
    requires Inv(c, s) && Enabled(c, s, step) && p < |s.commands| && s.commands[p].Retired?
    ensures s.registryUp && Enabled(c, s, HandleCommand)
    ensures var t := Apply(c, s, step);
            if step != HandleCommand then p < |t.commands| && t.commands[p] == s.commands[p]
            else p > 0 ==> p - 1 < |t.commands| && t.commands[p - 1] == s.commands[p]
  {
    assert s.commands != [];
    match step {
      case OfRoute(r, act) => RouteAround(c, s, r, act);
      case OfWorker(g, task) => WorkerAround(c, s, g, task);
      case HandleCommand => assert ApplyRegistry(s).commands == s.commands[1..];
      case DropHandles =>
      case StopRegistry =>
    }
  }

  /** When the notice is handled every waiter that is still open is handed the next generation. */
  lemma WaitersGetNextGeneration(c: Config, s: State, key: Key, g: nat, r: nat)
    requires Inv(c, s) && s.registryUp && s.commands != [] && s.commands[0] == Retired(key, g)
    requires IsWaiter(s.registry, key, r) && r < |s.routes| && s.routes[r].phase.Waiting?
    ensures var t := ApplyRegistry(s);
            && t.routes[r].phase == Granted(s.routes[r].phase.index, s.registry.nextGeneration)
            && s.registry.nextGeneration > g
            && s.registry.nextGeneration in t.workers
            && t.workers[s.registry.nextGeneration] == Worker(key, Serving, [], None)
  {
    RetiredFindsDrained(c, s, key, g);
    assert r in OpenRequests(s);
  }

  lemma WaiterOverTasks(c: Config, s: State, step: Step, key: Key, r: nat)
    requires LifeOk(s) && |s.routes| == |c.routes| && Enabled(c, s, step) && step != HandleCommand
    requires IsWaiter(s.registry, key, r) && r < |s.routes| && s.routes[r].phase.Waiting?
    requires step != OfRoute(r, AbortRoute)
    ensures var t := Apply(c, s, step);
            IsWaiter(t.registry, key, r) && r < |t.routes| && t.routes[r] == s.routes[r]
  {
    match step {
      case OfRoute(q, act) => RouteAround(c, s, q, act);
      case OfWorker(g, task) => WorkerAround(c, s, g, task);
      case DropHandles =>
      case StopRegistry => WaiterKeepsRegistryUp(s, r);
    }
  }

  /** Until then an open waiter stays one. */
  lemma WaiterStays(c: Config, s: State, step: Step, key: Key, r: nat)
    requires Control(c, s) && Enabled(c, s, step)
    requires IsWaiter(s.registry, key, r) && r < |s.routes| && s.routes[r].phase.Waiting?
    requires step != OfRoute(r, AbortRoute)
    requires step == HandleCommand ==> !(s.commands[0].Retired? && s.commands[0].key == key)
    ensures var t := Apply(c, s, step);
            IsWaiter(t.registry, key, r) && r < |t.routes| && t.routes[r] == s.routes[r]
  {
    if step == HandleCommand {
      WaiterNotGranted(c, s, key, r);
    } else {
      WaiterOverTasks(c, s, step, key, r);
    }
  }

  lemma WaiterKeepsRegistryUp(s: State, r: nat)
    requires LifeOk(s) && r < |s.routes| && !Over(s.routes[r].phase)
    ensures Strong(s.handles, s.workers)
  {
  }

  lemma WaiterNotGranted(c: Config, s: State, key: Key, r: nat)
    requires Control(c, s) && s.registryUp && s.commands != []
    requires IsWaiter(s.registry, key, r) && r < |s.routes| && s.routes[r].phase.Waiting?
    requires !(s.commands[0].Retired? && s.commands[0].key == key)
    ensures IsWaiter(ApplyRegistry(s).registry, key, r) && ApplyRegistry(s).routes[r] == s.routes[r]
  {
    match s.commands[0] {
      case Acquire(k, q) =>
        AcquireUnique(c, s, k, q);
        WaiterOverAcquire(s, k, q, key, r);
      case BeginRetirement(k, g) =>
        BeginFindsActive(c, s, k, g);
        WaiterOverBegin(s, k, g, key, r);
      case Retired(k, g) =>
        RetiredFindsDrained(c, s, k, g);
        assert MayBeWaiting(c, s.routes, key, r) && !MayBeWaiting(c, s.routes, k, r);
        WaiterOverRetired(s, k, g, key, r);
    }
    MissedStays(s.(commands := s.commands[1..]), s.commands[0].key,
                React(s.registry, s.commands[0], OpenRequests(s)), key, r);
  }

  /** A reaction that leaves a waiter where it is. */
  predicate Missed(x: Reaction, key: Key, r: nat) {
    IsWaiter(x.registry, key, r) && r !in x.grants
  }

  lemma MissedStays(s: State, key: Key, x: Reaction, waited: Key, r: nat)
    requires Missed(x, waited, r) && r < |s.routes|
    ensures IsWaiter(ApplyReaction(s, key, x).registry, waited, r)
    ensures ApplyReaction(s, key, x).routes[r] == s.routes[r]
  {
  }

  lemma WaiterOverAcquire(s: State, k: Key, q: nat, key: Key, r: nat)
    requires s.commands != [] && s.commands[0] == Acquire(k, q) && r < |s.routes|
    requires IsWaiter(s.registry, key, r) && q != r
    ensures Missed(React(s.registry, s.commands[0], OpenRequests(s)), key, r)
  {
  }

  lemma WaiterOverBegin(s: State, k: Key, g: nat, key: Key, r: nat)
    requires s.commands != [] && s.commands[0] == BeginRetirement(k, g) && r < |s.routes|
    requires IsWaiter(s.registry, key, r)
    ensures Missed(React(s.registry, s.commands[0], OpenRequests(s)), key, r)
  {
  }

  lemma WaiterOverRetired(s: State, k: Key, g: nat, key: Key, r: nat)
    requires s.commands != [] && s.commands[0] == Retired(k, g) && r < |s.routes|
    requires IsWaiter(s.registry, key, r) && k != key && !IsWaiter(s.registry, k, r)
    ensures Missed(React(s.registry, s.commands[0], OpenRequests(s)), key, r)
  {
  }
}
