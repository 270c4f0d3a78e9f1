/** Where runs end. A run that can only go on by cancelling or panicking has nobody waiting, every
    route that was not cancelled is finished, and every run gets there. */
module PartitionProgress {
  import opened Options
  import opened RouteJob
  import opened PartitionRegistry
  import opened PartitionModel
  import opened PartitionControl
  import opened PartitionJobs
  import opened PartitionTheorems
  import opened PartitionRefinement
  import opened PartitionRetirement
  import opened PartitionWaiters
  import opened PartitionMeasure

  // ---------- what is pending was submitted ----------

  /** A completion that the loop waits for is that of a message it submitted. */
  predicate PendingTaken(c: Config, r: nat, route: Route) {
    forall i :: i in route.pending ==>
      i < route.taken && KeyOf(c, Job(r, i)).Some? && CarriedIndex(route.phase) != Some(i)
  }

  ghost predicate AllPendingTaken(c: Config, s: State) {
    forall r :: 0 <= r < |s.routes| ==> PendingTaken(c, r, s.routes[r])
  }

  lemma PendingRouteStep(c: Config, s: State, r: nat, act: RouteStep)
    requires RoutesOk(c, s) && AllPendingTaken(c, s) && EnabledRoute(c, s, r, act)
    ensures AllPendingTaken(c, ApplyRoute(c, s, r, act))
  {
    var t := ApplyRoute(c, s, r, act);
    assert PhaseOk(c, r, s.routes[r]) && PendingTaken(c, r, s.routes[r]);
    assert t.routes == s.routes[r := t.routes[r]];
  }

  lemma PendingGranted(c: Config, s: State)
    requires AllPendingTaken(c, s) && s.commands != []
    ensures AllPendingTaken(c, ApplyRegistry(s))
  {
    var t := ApplyRegistry(s);
    forall r | 0 <= r < |t.routes| ensures PendingTaken(c, r, t.routes[r]) {
      assert PendingTaken(c, r, s.routes[r]);
    }
  }

  lemma PendingStep(c: Config, s: State, step: Step)
    requires RoutesOk(c, s) && AllPendingTaken(c, s) && Enabled(c, s, step)
    ensures AllPendingTaken(c, Apply(c, s, step))
  {
    match step {
      case OfRoute(r, act) => PendingRouteStep(c, s, r, act);
      case OfWorker(g, task) => assert ApplyWorker(c, s, g, task).routes == s.routes;
      case HandleCommand => PendingGranted(c, s);
      case DropHandles =>
      case StopRegistry =>
    }
  }

  lemma {:induction false} PendingRun(c: Config, from: State, steps: seq<Step>, s: State)
    requires Inv(c, from) && AllPendingTaken(c, from) && Reaches(c, from, steps, s)
    ensures AllPendingTaken(c, s)
    decreases |steps|
  {
    if steps != [] {
      PendingStep(c, from, steps[0]);
      InvStep(c, from, steps[0]);
      PendingRun(c, Apply(c, from, steps[0]), steps[1..], s);
    }
  }

  lemma PendingReachable(c: Config, s: State)
    requires Reachable(c, s)
    ensures Inv(c, s) && AllPendingTaken(c, s)
  {
    var steps :| Reaches(c, Init(c), steps, s);
    InvReachable(c, s);
    ControlInit(c);
    JobsInit(c);
    PendingRun(c, Init(c), steps, s);
  }

  // ---------- where nothing is left to do ----------

  /** A step that is not part of getting the work done. */
  predicate Mishap(step: Step) {
    match step
    case OfRoute(_, act) => act.AbortRoute?
    case OfWorker(_, task) => task.Panic?
    case _ => false
  }

  ghost predicate CanMove(c: Config, s: State)
    requires |s.routes| == |c.routes|
  {
    exists step :: Enabled(c, s, step) && !Mishap(step)
  }

  /** Nothing but cancelling or panicking can happen. */
  ghost predicate Stuck(c: Config, s: State)
    requires |s.routes| == |c.routes|
  {
    !CanMove(c, s)
  }

  lemma Moves(c: Config, s: State, step: Step)
    requires |s.routes| == |c.routes| && Enabled(c, s, step) && !Mishap(step)
    ensures CanMove(c, s)
  {
  }

  lemma CommandMoves(c: Config, s: State)
    requires LifeOk(s) && |s.routes| == |c.routes| && s.commands != []
    ensures CanMove(c, s)
  {
    Moves(c, s, HandleCommand);
  }

  lemma RunningMoves(c: Config, s: State, g: nat)
    requires WorkersOk(c, s) && RunsOk(c, s) && |s.routes| == |c.routes|
    requires g in s.workers && s.workers[g].running.Some?
    ensures CanMove(c, s)
  {
    var w := s.workers[g];
    assert WorkerOk(c, w);
    assert RunsAt(c, RunsOf(s, w.key), RunningOf(s.current, s.workers, w.key));
    var p := w.running.value;
    assert RunOk(c, Run(p.job, p.done, Unfinished));
    Moves(c, s, OfWorker(g, if p.done < |JobScript(c, p.job)| then Emit else Complete));
  }

  /** The worker talks to the registry. */
  lemma TalkingMoves(c: Config, s: State, g: nat)
    requires Control(c, s) && g in s.workers && s.workers[g].running.None?
    requires s.workers[g].mode.Serving? || s.workers[g].mode.Asking? || s.workers[g].mode.Answered?
    ensures CanMove(c, s)
  {
    match s.workers[g].mode {
      case Serving => Moves(c, s, OfWorker(g, if Strong(s.handles, s.workers) then AskRetirement else DrainWithoutRegistry));
      case Asking =>
        assert BeginRetirement(s.workers[g].key, g) in s.commands;
        CommandMoves(c, s);
      case Answered(_) => Moves(c, s, OfWorker(g, ReceiveAnswer));
    }
  }

  /** A worker with a job, or one it has not started, can go on. */
  lemma BusyMoves(c: Config, s: State, g: nat)
    requires Control(c, s) && RunsOk(c, s) && g in s.workers && !s.workers[g].mode.Done?
    requires s.workers[g].running.Some? || s.workers[g].queue != []
    ensures CanMove(c, s)
  {
    var w := s.workers[g];
    if w.running.Some? {
      RunningMoves(c, s, g);
    } else if w.mode.Draining? || w.mode.LastDrain? {
      Moves(c, s, OfWorker(g, Start));
    } else {
      TalkingMoves(c, s, g);
    }
  }

  /** Whoever holds a sender can use it, or its worker can make room. */
  lemma HolderMoves(c: Config, s: State, r: nat)
    requires Control(c, s) && RunsOk(c, s) && c.capacity > 0
    requires r < |s.routes| && (s.routes[r].phase.Granted? || s.routes[r].phase.Sending?)
    ensures CanMove(c, s)
  {
    var p := s.routes[r].phase;
    assert SenderOk(c, s.workers, r, p);
    if p.Granted? {
      Moves(c, s, OfRoute(r, ReceiveSender));
    } else if |s.workers[p.gen].queue| < c.capacity {
      Moves(c, s, OfRoute(r, Send));
    } else {
      BusyMoves(c, s, p.gen);
    }
  }

  /** A draining worker without work: whoever still has a sender for it can move, or it can close. */
  lemma DrainedMoves(c: Config, s: State, g: nat)
    requires Control(c, s) && RunsOk(c, s) && c.capacity > 0 && g in s.workers
    requires s.workers[g].mode.Draining? || s.workers[g].mode.LastDrain?
    requires s.workers[g].running.None? && s.workers[g].queue == []
    ensures CanMove(c, s)
  {
    if r :| 0 <= r < |s.routes| && Holds(s.routes[r].phase, g) {
      HolderMoves(c, s, r);
    } else if key :| key in s.registry.entries && s.registry.entries[key] == Active(g) {
      assert EntryOk(s.workers, key, s.registry.entries[key]);
      if s.commands != [] {
        CommandMoves(c, s);
      } else {
        Moves(c, s, StopRegistry);
      }
    } else {
      Moves(c, s, OfWorker(g, CloseWorker));
    }
  }

  /** As long as a worker is not done something can be done. */
  lemma WorkerMoves(c: Config, s: State, g: nat)
    requires Control(c, s) && RunsOk(c, s) && c.capacity > 0 && g in s.workers && !s.workers[g].mode.Done?
    ensures CanMove(c, s)
  {
    var w := s.workers[g];
    if w.running.Some? || w.queue != [] {
      BusyMoves(c, s, g);
    } else if w.mode.Draining? || w.mode.LastDrain? {
      DrainedMoves(c, s, g);
    } else {
      TalkingMoves(c, s, g);
    }
  }

  lemma WaitingMoves(c: Config, s: State, r: nat)
    requires Inv(c, s) && c.capacity > 0 && r < |s.routes| && s.routes[r].phase.Waiting?
    ensures CanMove(c, s)
  {
    var key := KeyOf(c, Job(r, s.routes[r].phase.index));
    assert Pledged(c, s.commands, s.registry, r, s.routes[r].phase.index);
    if s.commands != [] {
      CommandMoves(c, s);
    } else {
      var g := s.registry.entries[key.value].gen;
      HelpIsEnabled(c, s, key.value, g, r);
      var step :| Enabled(c, s, step) && Helps(s, step, g) && step != OfWorker(g, Panic);
      Moves(c, s, step);
    }
  }

  /** When all workers are done every completion the loop waits for has fired. */
  lemma CompletedByNow(c: Config, s: State, r: nat, i: nat)
    requires Inv(c, s) && r < |s.routes| && PendingTaken(c, r, s.routes[r]) && i in s.routes[r].pending
    requires forall g :: g in s.workers ==> s.workers[g].mode.Done?
    ensures Job(r, i) in s.completions
  {
    var job, key := Job(r, i), KeyOf(c, Job(r, i)).value;
    NothingQueued(c, s, key);
    PlacesOf(c, s, key, r, i);
    RunIsOver(c, s, key, job);
    assert s.completions[job] == EndedRuns(c, s, job);
  }

  lemma NothingQueued(c: Config, s: State, key: Key)
    requires WorkersOk(c, s) && forall g :: g in s.workers ==> s.workers[g].mode.Done?
    ensures QueueOf(s.current, s.workers, key) == [] && RunningOf(s.current, s.workers, key) == None
  {
    if key in s.current && s.current[key] in s.workers {
      assert WorkerOk(c, s.workers[s.current[key]]);
    }
  }

  /** A job that was started has run to its end when its key has nothing running. */
  lemma {:induction false} RunIsOver(c: Config, s: State, key: Key, job: Job)
    requires RunsOk(c, s) && RunningOf(s.current, s.workers, key) == None
    ensures multiset(RunJobs(RunsOf(s, key)))[job] > 0 ==> Ended(RunsOf(s, key), job) > 0
  {
    var runs := RunsOf(s, key);
    assert RunsAt(c, runs, RunningOf(s.current, s.workers, key));
    EndedAtMost(runs, job);
    if job in multiset(RunJobs(runs)) {
      var k :| 0 <= k < |RunJobs(runs)| && RunJobs(runs)[k] == job;
      assert runs[k].job == job && !runs[k].ending.Unfinished?;
    }
  }

  lemma LoopMoves(c: Config, s: State, r: nat)
    requires Inv(c, s) && AllPendingTaken(c, s) && c.capacity > 0 && r < |s.routes| && s.routes[r].phase.Polling?
    ensures CanMove(c, s)
  {
    var route := s.routes[r];
    assert PendingTaken(c, r, route);
    if route.open {
      Moves(c, s, OfRoute(r, if route.taken < |c.routes[r].source| then Take else CloseSource));
    } else if route.pending == {} {
      Moves(c, s, OfRoute(r, FinishRoute));
    } else if g :| g in s.workers && !s.workers[g].mode.Done? {
      WorkerMoves(c, s, g);
    } else {
      var i :| i in route.pending;
      CompletedByNow(c, s, r, i);
      Moves(c, s, OfRoute(r, PollPending(i)));
    }
  }

  lemma SubmittingMoves(c: Config, s: State, r: nat)
    requires RoutesOk(c, s) && r < |s.routes| && (s.routes[r].phase.Inline? || s.routes[r].phase.Submitting?)
    ensures CanMove(c, s)
  {
    var p := s.routes[r].phase;
    assert PhaseOk(c, r, s.routes[r]);
    if p.Submitting? {
      Moves(c, s, OfRoute(r, SendAcquire));
    } else {
      Moves(c, s, OfRoute(r, if p.done < |JobScript(c, Job(r, p.index))| then EmitInline else EndInline));
    }
  }

  /** As long as a route is neither finished nor cancelled something can be done. */
  lemma RouteMoves(c: Config, s: State, r: nat)
    requires Inv(c, s) && AllPendingTaken(c, s) && c.capacity > 0 && r < |s.routes| && !PartitionModel.Over(s.routes[r].phase)
    ensures CanMove(c, s)
  {
    var p := s.routes[r].phase;
    if p.Polling? {
      LoopMoves(c, s, r);
    } else if p.Waiting? {
      WaitingMoves(c, s, r);
    } else if p.Granted? || p.Sending? {
      HolderMoves(c, s, r);
    } else {
      SubmittingMoves(c, s, r);
    }
  }

  /** Where nothing but cancelling or panicking can happen nobody waits, every route is finished or
      was cancelled, and every worker is gone. */
  lemma StuckIsOver(c: Config, s: State, r: nat)
    requires Reachable(c, s) && |s.routes| == |c.routes| && Stuck(c, s) && c.capacity > 0 && r < |s.routes|
    ensures s.routes[r].phase.Finished? || s.routes[r].phase.Aborted?
    ensures forall key, g: nat :: !WaitsOn(s, key, g, r)
    ensures forall g :: g in s.workers ==> s.workers[g].mode.Done?
  {
    PendingReachable(c, s);
    if !PartitionModel.Over(s.routes[r].phase) {
      RouteMoves(c, s, r);
    }
    forall g | g in s.workers ensures s.workers[g].mode.Done? {
      if !s.workers[g].mode.Done? {
        WorkerMoves(c, s, g);
      }
    }
  }

  // ---------- whole runs ----------

  lemma ReachableRoutes(c: Config, s: State)
    requires Reachable(c, s)
    ensures |s.routes| == |c.routes|
  {
    InvReachable(c, s);
  }

  /** Every run goes on to such an end, without anything being cancelled or panicking on the way. */
  lemma {:induction false} RunsToTheEnd(c: Config, s: State) returns (steps: seq<Step>, t: State)
    requires Reachable(c, s)
    ensures Reaches(c, s, steps, t) && (forall k :: 0 <= k < |steps| ==> !Mishap(steps[k]))
    ensures Reachable(c, t) && |t.routes| == |c.routes| && Stuck(c, t)
    decreases Total(c, s)
  {
    ReachableRoutes(c, s);
    if Stuck(c, s) {
      steps, t := [], s;
    } else {
      var step :| Enabled(c, s, step) && !Mishap(step);
      StepTotal(c, s, step);
      ReachableStep(c, s, step);
      var more;
      more, t := RunsToTheEnd(c, Apply(c, s, step));
      steps := [step] + more;
      assert steps[1..] == more;
    }
  }

  /** Somewhere in the run the route is handed a sender of a generation after `g`. */
  ghost predicate ServedIn(c: Config, from: State, steps: seq<Step>, s: State, g: nat, r: nat)
    requires Reaches(c, from, steps, s)
    decreases |steps|
  {
    steps != [] &&
      (Served(from, Apply(c, from, steps[0]), g, r) || ServedIn(c, Apply(c, from, steps[0]), steps[1..], s, g, r))
  }

  /** The route still waits, no further from being served than in `from`. */
  ghost predicate StillWaits(c: Config, from: State, s: State, key: Key, g: nat, r: nat) {
    WaitsOn(s, key, g, r) && AtMost(RankOf(c, s, key, g), RankOf(c, from, key, g))
  }

  lemma StillWaiting(c: Config, from: State, next: State, s: State, key: Key, g: nat, r: nat)
    requires StillWaits(c, from, next, key, g, r) && StillWaits(c, next, s, key, g, r)
    ensures StillWaits(c, from, s, key, g, r)
  {
  }

  lemma WaitsOnce(c: Config, s: State, step: Step, t: State, key: Key, g: nat, r: nat) returns (served: bool)
    requires Inv(c, s) && Enabled(c, s, step) && t == Apply(c, s, step)
    requires WaitsOn(s, key, g, r) && step != OfRoute(r, AbortRoute)
    ensures Inv(c, t) && if served then Served(s, t, g, r) else WaitsOn(t, key, g, r) && StillWaits(c, s, t, key, g, r)
  {
    WaiterStep(c, s, step, key, g, r);
    InvStep(c, s, step);
    served := Served(s, t, g, r);
  }

  lemma {:induction false} ServedAtOnce(c: Config, from: State, next: State, steps: seq<Step>, s: State, g: nat, r: nat)
    requires steps != [] && Reaches(c, from, steps, s) && next == Apply(c, from, steps[0])
    requires Served(from, next, g, r)
    ensures ServedIn(c, from, steps, s, g, r)
  {
  }

  /** What the rest of the run adds to a first step that did not serve the route. */
  lemma {:induction false} WaitsLater(c: Config, from: State, next: State, steps: seq<Step>, s: State, key: Key, g: nat, r: nat)
    requires steps != [] && Reaches(c, from, steps, s) && next == Apply(c, from, steps[0])
    requires StillWaits(c, from, next, key, g, r)
    requires ServedIn(c, next, steps[1..], s, g, r) || StillWaits(c, next, s, key, g, r)
    ensures ServedIn(c, from, steps, s, g, r) || StillWaits(c, from, s, key, g, r)
  {
    if !ServedIn(c, next, steps[1..], s, g, r) {
      StillWaiting(c, from, next, s, key, g, r);
    }
  }

  /** Along a run in which it is not cancelled, a waiting route is served or still waits, no further
      from being served than before. */
  lemma {:induction false} WaitsAlong(c: Config, from: State, steps: seq<Step>, s: State, key: Key, g: nat, r: nat)
    requires Inv(c, from) && Reaches(c, from, steps, s) && WaitsOn(from, key, g, r)
    requires OfRoute(r, AbortRoute) !in steps
    ensures ServedIn(c, from, steps, s, g, r) || StillWaits(c, from, s, key, g, r)
    decreases |steps|
  {
    if steps != [] {
      var next := Apply(c, from, steps[0]);
      var served := WaitsOnce(c, from, steps[0], next, key, g, r);
      if served {
        ServedAtOnce(c, from, next, steps, s, g, r);
      } else {
        WaitsAlong(c, next, steps[1..], s, key, g, r);
        WaitsLater(c, from, next, steps, s, key, g, r);
      }
    }
  }

  /** In every run to the end in which it is not cancelled, a waiting route is handed a sender of a
      later generation. Every run is finite, so nothing has to be assumed about fairness. */
  lemma {:induction false} WaiterIsServed(c: Config, from: State, steps: seq<Step>, s: State, key: Key, g: nat, r: nat)
    requires Reachable(c, from) && c.capacity > 0 && Reaches(c, from, steps, s)
    requires WaitsOn(from, key, g, r) && OfRoute(r, AbortRoute) !in steps
    requires Reachable(c, s) && |s.routes| == |c.routes| && Stuck(c, s)
    ensures ServedIn(c, from, steps, s, g, r)
  {
    InvReachable(c, from);
    WaitsAlong(c, from, steps, s, key, g, r);
    assert !WaitsOn(s, key, g, r) by {
      if r < |s.routes| {
        StuckIsOver(c, s, r);
      }
    }
  }

  /** In every run to the end without a panic, each key has seen of each route that was not cancelled
      exactly what the unpartitioned loop would have made it see. */
  lemma {:induction false} MaximalRunDidItAll(c: Config, s: State, key: Key, r: nat, b: Binding, outcomes: seq<Outcome>)
    requires Reachable(c, s) && |s.routes| == |c.routes| && Stuck(c, s) && c.capacity > 0 && PanicFree(s)
    requires Processes(c, r, b, outcomes) && !s.routes[r].phase.Aborted?
    ensures s.routes[r].phase.Finished?
    ensures RouteLog(KeyLog(c, s.log, key), r) == KeyLog(c, AsEvents(r, LoopLog(b, outcomes, |outcomes|)), key)
  {
    StuckIsOver(c, s, r);
    FinishedRouteDidItAll(c, s, key, r, b, outcomes);
  }
}
