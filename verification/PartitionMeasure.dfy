/** Every run of a partitioned configuration is finite: each step uses up some of a measure. */
module PartitionMeasure {
  import opened Options
  import opened RouteJob
  import opened PartitionRegistry
  import opened PartitionModel
  import opened PartitionControl
  import opened PartitionJobs
  import opened PartitionTheorems

  function ScriptLength(c: Config, job: Job): nat {
    if ValidJob(c, job) then |JobScript(c, job)| else 0
  }

  /** What a message costs from where it is on: the scheduling steps still ahead of it, those of a
      worker spawned for it, and its effects. */
  function PhaseCost(c: Config, r: nat, p: Phase): nat {
    match p
    case Polling => 1
    case Inline(i, done) => if done <= ScriptLength(c, Job(r, i)) then ScriptLength(c, Job(r, i)) - done + 2 else 2
    case Submitting(i) => ScriptLength(c, Job(r, i)) + 23
    case Waiting(i) => ScriptLength(c, Job(r, i)) + 14
    case Granted(i, _) => ScriptLength(c, Job(r, i)) + 6
    case Sending(i, _) => ScriptLength(c, Job(r, i)) + 5
    case Finished => 0
    case Aborted(_) => 0
  }

  /** The messages of a route from position `i` on. */
  function UnreadCost(c: Config, r: nat, i: nat): nat
    requires r < |c.routes| && i <= |c.routes[r].source|
    decreases |c.routes[r].source| - i
  {
    if i == |c.routes[r].source| then 0 else ScriptLength(c, Job(r, i)) + 24 + UnreadCost(c, r, i + 1)
  }

  function RouteCost(c: Config, r: nat, route: Route): nat {
    (if r < |c.routes| && route.taken <= |c.routes[r].source| then UnreadCost(c, r, route.taken) else 0)
    + PhaseCost(c, r, route.phase) + |route.pending| + if route.open then 1 else 0
  }

  function RoutesCost(c: Config, routes: seq<Route>, n: nat): nat
    requires n <= |routes|
  {
    if n == 0 then 0 else RoutesCost(c, routes, n - 1) + RouteCost(c, n - 1, routes[n - 1])
  }

  function QueueCost(c: Config, queue: seq<Job>): nat {
    if queue == [] then 0 else QueueCost(c, queue[..|queue| - 1]) + ScriptLength(c, queue[|queue| - 1]) + 2
  }

  function RunningCost(c: Config, running: Option<Progress>): nat {
    match running
    case None => 0
    case Some(p) => if p.done <= ScriptLength(c, p.job) then ScriptLength(c, p.job) - p.done + 1 else 1
  }

  function ModeCost(m: Mode): nat {
    match m
    case Serving => 7
    case Asking => 5
    case Answered(_) => 4
    case Draining => 3
    case LastDrain => 1
    case Done => 0
  }

  function WorkerCost(c: Config, w: Worker): nat {
    QueueCost(c, w.queue) + RunningCost(c, w.running) + ModeCost(w.mode)
  }

  /** The workers of the generations below `n`. */
  function WorkersCost(c: Config, workers: map<nat, Worker>, n: nat): nat {
    if n == 0 then 0
    else WorkersCost(c, workers, n - 1) + if n - 1 in workers then WorkerCost(c, workers[n - 1]) else 0
  }

  function CommandCost(x: Command): nat {
    if x.Acquire? then 8 else 1
  }

  function CommandsCost(commands: seq<Command>): nat {
    if commands == [] then 0 else CommandCost(commands[0]) + CommandsCost(commands[1..])
  }

  function Total(c: Config, s: State): nat {
    RoutesCost(c, s.routes, |s.routes|) + WorkersCost(c, s.workers, s.registry.nextGeneration)
    + CommandsCost(s.commands) + (if s.registryUp then 1 else 0) + if s.handles then 1 else 0
  }

  // ---------- sums ----------

  lemma {:induction false} CommandsCostAppend(commands: seq<Command>, x: Command)
    ensures CommandsCost(commands + [x]) == CommandsCost(commands) + CommandCost(x)
  {
    if commands == [] {
      assert [] + [x] == [x] && [x][1..] == [];
    } else {
      CommandsCostAppend(commands[1..], x);
      assert (commands + [x])[1..] == commands[1..] + [x];
    }
  }

  lemma {:induction false} QueueCostFirst(c: Config, queue: seq<Job>)
    requires queue != []
    ensures QueueCost(c, queue) == ScriptLength(c, queue[0]) + 2 + QueueCost(c, queue[1..])
  {
    if |queue| > 1 {
      QueueCostFirst(c, queue[..|queue| - 1]);
      assert queue[..|queue| - 1][1..] == queue[1..][..|queue| - 2];
    } else {
      assert queue[..0] == [] && queue[1..] == [];
    }
  }

  lemma {:induction false} QueueCostAppend(c: Config, queue: seq<Job>, job: Job)
    ensures QueueCost(c, queue + [job]) == QueueCost(c, queue) + ScriptLength(c, job) + 2
  {
    assert (queue + [job])[..|queue + [job]| - 1] == queue;
  }

  /** Replacing one route. */
  lemma {:induction false} RoutesCostMoved(c: Config, routes: seq<Route>, r: nat, route: Route, n: nat)
    requires r < |routes| && n <= |routes|
    ensures RoutesCost(c, routes[r := route], n) + (if r < n then RouteCost(c, r, routes[r]) else 0)
         == RoutesCost(c, routes, n) + (if r < n then RouteCost(c, r, route) else 0)
  {
    if n > 0 {
      RoutesCostMoved(c, routes, r, route, n - 1);
    }
  }

  /** Replacing one worker. */
  lemma {:induction false} WorkersCostMoved(c: Config, workers: map<nat, Worker>, g: nat, w: Worker, n: nat)
    requires g in workers
    ensures WorkersCost(c, workers[g := w], n) + (if g < n then WorkerCost(c, workers[g]) else 0)
         == WorkersCost(c, workers, n) + (if g < n then WorkerCost(c, w) else 0)
  {
    if n > 0 {
      WorkersCostMoved(c, workers, g, w, n - 1);
    }
  }

  /** A worker of a generation from `n` on. */
  lemma {:induction false} WorkersCostAbove(c: Config, workers: map<nat, Worker>, g: nat, w: Worker, n: nat)
    requires g >= n
    ensures WorkersCost(c, workers[g := w], n) == WorkersCost(c, workers, n)
  {
    if n > 0 {
      WorkersCostAbove(c, workers, g, w, n - 1);
    }
  }

  predicate Grants(route: Route, r: nat, grants: seq<nat>) {
    r in grants && route.phase.Waiting?
  }

  /** What is saved by granting senders to the first `n` routes. */
  function Saved(routes: seq<Route>, grants: seq<nat>, n: nat): nat
    requires n <= |routes|
  {
    if n == 0 then 0 else Saved(routes, grants, n - 1) + if Grants(routes[n - 1], n - 1, grants) then 8 else 0
  }

  lemma {:induction false} GrantCost(c: Config, routes: seq<Route>, granted: seq<Route>, grants: seq<nat>, gen: nat, n: nat)
    requires n <= |routes| && granted == Grant(routes, grants, gen)
    ensures RoutesCost(c, granted, n) + Saved(routes, grants, n) == RoutesCost(c, routes, n)
  {
    if n > 0 {
      GrantCost(c, routes, granted, grants, gen, n - 1);
      GrantCostOne(c, n - 1, routes[n - 1], granted[n - 1], grants, gen);
    }
  }

  lemma {:induction false} SavedOnOne(routes: seq<Route>, grants: seq<nat>, n: nat, r: nat)
    requires r < n <= |routes| && Grants(routes[r], r, grants)
    ensures Saved(routes, grants, n) >= 8
  {
    if r < n - 1 {
      SavedOnOne(routes, grants, n - 1, r);
    }
  }

  lemma GrantCostOne(c: Config, r: nat, route: Route, after: Route, grants: seq<nat>, gen: nat)
    requires after == if Grants(route, r, grants) then route.(phase := Granted(route.phase.index, gen)) else route
    ensures RouteCost(c, r, after) + (if Grants(route, r, grants) then 8 else 0) == RouteCost(c, r, route)
  {
  }

  // ---------- the steps ----------

  lemma PollCost(c: Config, s: State, r: nat, index: nat)
    requires |s.routes| == |c.routes| && EnabledRoute(c, s, r, PollPending(index))
    ensures var t := ApplyRoute(c, s, r, PollPending(index));
            && r < |t.routes| && t == s.(routes := s.routes[r := t.routes[r]], log := t.log)
            && RouteCost(c, r, t.routes[r]) < RouteCost(c, r, s.routes[r])
  {
    var pending := s.routes[r].pending;
    assert pending == (pending - {index}) + {index};
  }

  lemma PhaseOnly(c: Config, s: State, r: nat, act: RouteStep)
    requires RoutesOk(c, s) && EnabledRoute(c, s, r, act)
    requires !act.SendAcquire? && !act.Send? && !act.SendFails? && !act.PollPending? && !act.Take?
    ensures var t := ApplyRoute(c, s, r, act);
            && r < |t.routes| && t == s.(routes := s.routes[r := t.routes[r]], log := t.log)
            && RouteCost(c, r, t.routes[r]) < RouteCost(c, r, s.routes[r])
  {
    assert PhaseOk(c, r, s.routes[r]);
  }

  /** A step of a route that only concerns the route itself. */
  lemma OwnCost(c: Config, s: State, r: nat, act: RouteStep)
    requires RoutesOk(c, s) && EnabledRoute(c, s, r, act)
    requires !act.SendAcquire? && !act.Send? && !act.SendFails?
    ensures var t := ApplyRoute(c, s, r, act);
            && r < |t.routes| && t == s.(routes := s.routes[r := t.routes[r]], log := t.log)
            && RouteCost(c, r, t.routes[r]) < RouteCost(c, r, s.routes[r])
  {
    match act {
      case Take =>
      case PollPending(index) => PollCost(c, s, r, index);
      case _ => PhaseOnly(c, s, r, act);
    }
  }

  lemma RouteTotal(c: Config, s: State, t: State, r: nat)
    requires r < |s.routes| && r < |t.routes| && t == s.(routes := s.routes[r := t.routes[r]], log := t.log)
    requires RouteCost(c, r, t.routes[r]) < RouteCost(c, r, s.routes[r])
    ensures Total(c, t) < Total(c, s)
  {
    RoutesCostMoved(c, s.routes, r, t.routes[r], |s.routes|);
  }

  lemma AcquireTotal(c: Config, s: State, r: nat)
    requires RoutesOk(c, s) && EnabledRoute(c, s, r, SendAcquire)
    ensures Total(c, ApplyRoute(c, s, r, SendAcquire)) < Total(c, s)
  {
    var t := ApplyRoute(c, s, r, SendAcquire);
    RoutesCostMoved(c, s.routes, r, t.routes[r], |s.routes|);
    CommandsCostAppend(s.commands, t.commands[|s.commands|]);
  }

  lemma SendTotal(c: Config, s: State, r: nat)
    requires RoutesOk(c, s) && WorkersOk(c, s) && EnabledRoute(c, s, r, Send)
    ensures Total(c, ApplyRoute(c, s, r, Send)) < Total(c, s)
  {
    var t, g, job := ApplyRoute(c, s, r, Send), s.routes[r].phase.gen, Job(r, s.routes[r].phase.index);
    RoutesCostMoved(c, s.routes, r, t.routes[r], |s.routes|);
    WorkersCostMoved(c, s.workers, g, t.workers[g], s.registry.nextGeneration);
    QueueCostAppend(c, s.workers[g].queue, job);
    PendingOneMore(s.routes[r].pending, job.index);
  }

  lemma PendingOneMore(pending: set<nat>, i: nat)
    ensures |pending + {i}| <= |pending| + 1
  {
    assert i in pending ==> pending + {i} == pending;
  }

  lemma RouteTotals(c: Config, s: State, r: nat, act: RouteStep)
    requires Control(c, s) && EnabledRoute(c, s, r, act) && !act.SendFails?
    ensures Total(c, ApplyRoute(c, s, r, act)) < Total(c, s)
  {
    if act.SendAcquire? {
      AcquireTotal(c, s, r);
    } else if act.Send? {
      SendTotal(c, s, r);
    } else {
      OwnCost(c, s, r, act);
      RouteTotal(c, s, ApplyRoute(c, s, r, act), r);
    }
  }

  /** What a worker's step costs that sends nothing. */
  lemma QuietStepCost(c: Config, s: State, g: nat, task: WorkerStep)
    requires EnabledWorker(c, s, g, task) && s.workers[g].mode != Answered(false)
    requires !task.AskRetirement? && !task.CloseWorker?
    ensures var t := ApplyWorker(c, s, g, task);
            && g in t.workers && SameButWorker(s, t, g) && t.commands == s.commands
            && WorkerCost(c, t.workers[g]) < WorkerCost(c, s.workers[g])
  {
    if task.Start? {
      QueueCostFirst(c, s.workers[g].queue);
    }
  }

  /** What a step costs by which a worker may tell the registry something. */
  lemma TellingStepCost(c: Config, s: State, g: nat, task: WorkerStep)
    requires EnabledWorker(c, s, g, task) && (task.AskRetirement? || task.CloseWorker?)
    ensures var t := ApplyWorker(c, s, g, task);
            && g in t.workers && SameButWorker(s, t, g)
            && WorkerCost(c, t.workers[g]) < WorkerCost(c, s.workers[g])
            && (t.commands == s.commands
                || (WorkerCost(c, t.workers[g]) + 1 < WorkerCost(c, s.workers[g])
                    && |t.commands| > |s.commands| && !t.commands[|s.commands|].Acquire?
                    && t.commands == s.commands + [t.commands[|s.commands|]]))
  {
  }

  predicate SameButWorker(s: State, t: State, g: nat)
    requires g in t.workers
  {
    && t.workers == s.workers[g := t.workers[g]] && t.routes == s.routes
    && t.registry == s.registry && t.registryUp == s.registryUp && t.handles == s.handles
  }

  lemma WorkerTotal(c: Config, s: State, g: nat, task: WorkerStep)
    requires WorkersOk(c, s) && EnabledWorker(c, s, g, task)
    ensures Total(c, ApplyWorker(c, s, g, task)) < Total(c, s)
  {
    var t := ApplyWorker(c, s, g, task);
    assert WorkerOk(c, s.workers[g]);
    if task.AskRetirement? || task.CloseWorker? {
      TellingStepCost(c, s, g, task);
    } else {
      QuietStepCost(c, s, g, task);
    }
    WorkersCostMoved(c, s.workers, g, t.workers[g], s.registry.nextGeneration);
    if t.commands != s.commands {
      CommandsCostAppend(s.commands, t.commands[|s.commands|]);
    }
  }

  lemma SpawnedCost(c: Config, workers: map<nat, Worker>, n: nat, key: Key)
    ensures WorkersCost(c, workers[n := Worker(key, Serving, [], None)], n + 1) == WorkersCost(c, workers, n) + 7
  {
    WorkersCostAbove(c, workers, n, Worker(key, Serving, [], None), n);
  }

  lemma AnsweredCost(c: Config, workers: map<nat, Worker>, g: nat, n: nat)
    requires g in workers && workers[g].mode.Asking?
    ensures WorkersCost(c, workers[g := workers[g].(mode := Answered(true))], n) <= WorkersCost(c, workers, n)
  {
    WorkersCostMoved(c, workers, g, workers[g].(mode := Answered(true)), n);
  }

  predicate Spawns(s: State, t: State, key: Key) {
    && t.registry.nextGeneration == s.registry.nextGeneration + 1
    && t.workers == s.workers[s.registry.nextGeneration := Worker(key, Serving, [], None)]
  }

  predicate Answers(s: State, t: State, g: nat) {
    && g in s.workers && s.workers[g].mode.Asking?
    && t.workers == s.workers[g := s.workers[g].(mode := Answered(true))]
  }

  lemma BeginAnswers(c: Config, s: State, key: Key, g: nat)
    requires Control(c, s) && s.registryUp && s.commands != [] && s.commands[0] == BeginRetirement(key, g)
    ensures Answers(s, ApplyRegistry(s), g)
    ensures ApplyRegistry(s).registry.nextGeneration == s.registry.nextGeneration
  {
    BeginFindsActive(c, s, key, g);
  }

  lemma OthersSpawn(s: State, x: Reaction)
    requires s.commands != [] && !s.commands[0].BeginRetirement?
    requires x == React(s.registry, s.commands[0], OpenRequests(s))
    ensures var t := ApplyRegistry(s);
            if x.spawned then Spawns(s, t, s.commands[0].key)
            else t.workers == s.workers && t.registry.nextGeneration == s.registry.nextGeneration
  {
  }

  /** A command that is handled costs the workers nothing unless one is spawned. */
  lemma {:induction false} HandledWorkers(c: Config, s: State, t: State, x: Reaction)
    requires s.commands != [] && t == ApplyRegistry(s) && x == React(s.registry, s.commands[0], OpenRequests(s))
    requires s.commands[0].BeginRetirement? ==>
               Answers(s, t, s.commands[0].gen) && t.registry.nextGeneration == s.registry.nextGeneration
    ensures WorkersCost(c, t.workers, t.registry.nextGeneration)
         <= WorkersCost(c, s.workers, s.registry.nextGeneration) + if x.spawned then 7 else 0
  {
    if s.commands[0].BeginRetirement? {
      AnsweredCost(c, s.workers, s.commands[0].gen, s.registry.nextGeneration);
    } else {
      OthersSpawn(s, x);
      SpawnedCost(c, s.workers, s.registry.nextGeneration, s.commands[0].key);
    }
  }

  /** A generation is spawned for a retired one only if somebody open waits. */
  lemma SpawnServes(s: State, x: Reaction) returns (r: nat)
    requires s.commands != [] && x == React(s.registry, s.commands[0], OpenRequests(s))
    ensures x.spawned && !s.commands[0].Acquire? ==> r < |s.routes| && Grants(s.routes[r], r, x.grants)
  {
    if x.spawned && s.commands[0].Retired? {
      r := x.grants[0];
      assert r in x.grants && r in OpenRequests(s);
    } else {
      r := 0;
    }
  }

  /** What is spent on a spawn the command or the waiter `r` that is served pays for. */
  lemma {:induction false} HandledTotal(c: Config, s: State, t: State, x: Reaction, r: nat)
    requires s.commands != [] && t.commands == s.commands[1..]
    requires t.registryUp == s.registryUp && t.handles == s.handles && t.routes == Grant(s.routes, x.grants, x.gen)
    requires WorkersCost(c, t.workers, t.registry.nextGeneration)
          <= WorkersCost(c, s.workers, s.registry.nextGeneration) + if x.spawned then 7 else 0
    requires x.spawned && !s.commands[0].Acquire? ==> r < |s.routes| && Grants(s.routes[r], r, x.grants)
    ensures Total(c, t) < Total(c, s)
  {
    GrantCost(c, s.routes, t.routes, x.grants, x.gen, |s.routes|);
    if x.spawned && !s.commands[0].Acquire? {
      SavedOnOne(s.routes, x.grants, |s.routes|, r);
    }
  }

  lemma HandleTotal(c: Config, s: State)
    requires Control(c, s) && s.registryUp && s.commands != []
    ensures Total(c, ApplyRegistry(s)) < Total(c, s)
  {
    var t, x := ApplyRegistry(s), React(s.registry, s.commands[0], OpenRequests(s));
    if s.commands[0].BeginRetirement? {
      BeginAnswers(c, s, s.commands[0].key, s.commands[0].gen);
    }
    HandledWorkers(c, s, t, x);
    var r := SpawnServes(s, x);
    HandledTotal(c, s, t, x, r);
  }

  /** Every step anybody can take in a reachable state lowers the measure. */
  lemma StepTotal(c: Config, s: State, step: Step)
    requires Reachable(c, s) && |s.routes| == |c.routes| && Enabled(c, s, step)
    ensures Total(c, Apply(c, s, step)) < Total(c, s)
  {
    InvReachable(c, s);
    match step {
      case OfRoute(r, act) =>
        HeldSenderIsLive(c, s, r);
        RouteTotals(c, s, r, act);
      case OfWorker(g, task) => WorkerTotal(c, s, g, task);
      case HandleCommand => HandleTotal(c, s);
      case DropHandles =>
      case StopRegistry =>
    }
  }

  /** No run is longer than the measure at its start. */
  lemma {:induction false} RunsAreFinite(c: Config, from: State, steps: seq<Step>, s: State)
    requires Reachable(c, from) && Reaches(c, from, steps, s)
    ensures |steps| + Total(c, s) <= Total(c, from)
    decreases |steps|
  {
    if steps != [] {
      StepTotal(c, from, steps[0]);
      ReachableStep(c, from, steps[0]);
      RunsAreFinite(c, Apply(c, from, steps[0]), steps[1..], s);
    }
  }
}
