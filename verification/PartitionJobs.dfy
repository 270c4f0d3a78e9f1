/** Where every job is and what it has done: conservation, order, and what the log holds per key. */
module PartitionJobs {
  import opened Options
  import opened RouteJob
  import opened PartitionRegistry
  import opened PartitionModel
  import opened PartitionControl

  /** Positions, below `n`, of the messages of route `r` with this key, in source order. */
  function KeyedBelow(c: Config, r: nat, key: Key, n: nat): seq<nat> {
    if n == 0 then []
    else KeyedBelow(c, r, key, n - 1) + if KeyOf(c, Job(r, n - 1)) == Some(key) then [n - 1] else []
  }

  /** Positions, in one route's source, of the jobs of that route. */
  function ByRoute(jobs: seq<Job>, r: nat): seq<nat> {
    if jobs == [] then []
    else
      var last := jobs[|jobs| - 1];
      ByRoute(jobs[..|jobs| - 1], r) + if last.route == r then [last.index] else []
  }

  function RunJobs(runs: seq<Run>): (jobs: seq<Job>)
    ensures |jobs| == |runs|
    ensures forall k :: 0 <= k < |runs| ==> jobs[k] == runs[k].job
  {
    seq(|runs|, k requires 0 <= k < |runs| => runs[k].job)
  }

  function QueueOf(current: map<Key, nat>, workers: map<nat, Worker>, key: Key): seq<Job> {
    if key in current && current[key] in workers then workers[current[key]].queue else []
  }

  /** Every job ever put into a queue of this key, started ones first. */
  function Pipeline(s: State, key: Key): seq<Job> {
    RunJobs(RunsOf(s, key)) + QueueOf(s.current, s.workers, key)
  }

  /** The message a route is submitting, or was submitting when it was cancelled. */
  function CarriedIndex(p: Phase): Option<nat> {
    match p
    case Submitting(i) => Some(i)
    case Waiting(i) => Some(i)
    case Granted(i, _) => Some(i)
    case Sending(i, _) => Some(i)
    case Aborted(lost) => lost
    case _ => None
  }

  function Carried(c: Config, r: nat, p: Phase, key: Key): seq<nat> {
    var i := CarriedIndex(p);
    if i.Some? && KeyOf(c, Job(r, i.value)) == Some(key) then [i.value] else []
  }

  /** Conservation and order: the messages read from a source with some key are, in source order,
      those in the pipeline of the key and the one the route carries. */
  ghost predicate OrderOk(c: Config, s: State) {
    forall key, r: nat :: r < |s.routes| ==> OrderAt(c, s, key, r)
  }

  predicate OrderAt(c: Config, s: State, key: Key, r: nat)
    requires r < |s.routes|
  {
    ByRoute(Pipeline(s, key), r) + Carried(c, r, s.routes[r].phase, key)
    == KeyedBelow(c, r, key, s.routes[r].taken)
  }

  ghost predicate PipelineOk(c: Config, s: State) {
    forall key, job :: job in Pipeline(s, key) ==> KeyOf(c, job) == Some(key)
  }

  predicate RunOk(c: Config, run: Run) {
    && ValidJob(c, run.job) && run.done <= |JobScript(c, run.job)|
    && (run.ending.Completed? ==> run.done == |JobScript(c, run.job)|)
  }

  /** The job running for a key, if any. */
  function RunningOf(current: map<Key, nat>, workers: map<nat, Worker>, key: Key): Option<Progress> {
    if key in current && current[key] in workers then workers[current[key]].running else None
  }

  /** All runs but the last are over; the last is not exactly when the worker of the key is at it. */
  predicate RunsAt(c: Config, runs: seq<Run>, running: Option<Progress>) {
    && (forall k :: 0 <= k < |runs| ==> RunOk(c, runs[k]))
    && (forall k :: 0 <= k < |runs| - 1 ==> !runs[k].ending.Unfinished?)
    && match running
       case Some(p) => runs != [] && runs[|runs| - 1] == Run(p.job, p.done, Unfinished)
       case None => runs != [] ==> !runs[|runs| - 1].ending.Unfinished?
  }

  ghost predicate RunsOk(c: Config, s: State) {
    forall key :: RunsAt(c, RunsOf(s, key), RunningOf(s.current, s.workers, key))
  }

  function Emitted(c: Config, run: Run): seq<Event> {
    if RunOk(c, run) then seq(run.done, k requires 0 <= k < run.done => Event(run.job, JobScript(c, run.job)[k]))
    else []
  }

  function Flatten(c: Config, runs: seq<Run>): seq<Event> {
    if runs == [] then [] else Flatten(c, runs[..|runs| - 1]) + Emitted(c, runs[|runs| - 1])
  }

  /** The events of jobs with this key. */
  function KeyLog(c: Config, log: seq<Event>, key: Key): seq<Event> {
    if log == [] then []
    else
      var last := log[|log| - 1];
      KeyLog(c, log[..|log| - 1], key) + if KeyOf(c, last.job) == Some(key) then [last] else []
  }

  /** Per key the log is what the runs of that key emitted, one run after the other. */
  ghost predicate LogOk(c: Config, s: State) {
    forall key :: KeyLog(c, s.log, key) == Flatten(c, RunsOf(s, key))
  }

  function Ended(runs: seq<Run>, job: Job): nat {
    if runs == [] then 0
    else
      var last := runs[|runs| - 1];
      Ended(runs[..|runs| - 1], job) + if last.job == job && !last.ending.Unfinished? then 1 else 0
  }

  function EndedRuns(c: Config, s: State, job: Job): nat {
    match KeyOf(c, job)
    case Some(key) => Ended(RunsOf(s, key), job)
    case None => 0
  }

  ghost predicate CompletionsOk(c: Config, s: State) {
    forall job :: s.completions[job] == EndedRuns(c, s, job)
  }

  /** A submitted job is pending with its route until its completion has been consumed. */
  ghost predicate PendingOk(c: Config, s: State) {
    forall r: nat, i: nat :: r < |s.routes| && Submitted(c, r, s.routes[r], i) ==>
      i in s.routes[r].pending || Job(r, i) in s.completions
  }

  /** A live route has read message `i`, found its key and handed its job to a worker. */
  predicate Submitted(c: Config, r: nat, route: Route, i: nat) {
    && i < route.taken && KeyOf(c, Job(r, i)).Some?
    && CarriedIndex(route.phase) != Some(i) && !route.phase.Aborted?
  }

  ghost predicate Jobs(c: Config, s: State) {
    && OrderOk(c, s) && PipelineOk(c, s) && RunsOk(c, s)
    && LogOk(c, s) && CompletionsOk(c, s) && PendingOk(c, s)
  }

  lemma JobsInit(c: Config)
    ensures Jobs(c, Init(c))
  {
  }

  lemma {:induction false} FlattenAppend(c: Config, runs: seq<Run>, run: Run)
    ensures Flatten(c, runs + [run]) == Flatten(c, runs) + Emitted(c, run)
  {
  }

  lemma {:induction false} ByRouteAppend(jobs: seq<Job>, job: Job, r: nat)
    ensures ByRoute(jobs + [job], r) == ByRoute(jobs, r) + if job.route == r then [job.index] else []
  {
  }

  lemma {:induction false} KeyLogAppend(c: Config, log: seq<Event>, e: Event, key: Key)
    ensures KeyLog(c, log + [e], key) == KeyLog(c, log, key) + if KeyOf(c, e.job) == Some(key) then [e] else []
  {
  }

  /** Completions can only be consumed by the loop that submitted the job. */
  lemma PendingRoute(c: Config, s: State, r: nat, act: RouteStep)
    requires RoutesOk(c, s) && PendingOk(c, s) && EnabledRoute(c, s, r, act)
    ensures PendingOk(c, ApplyRoute(c, s, r, act))
  {
  }

  /** `t` has the runs, the running jobs and the completions of `s`. */
  ghost predicate SameRuns(s: State, t: State) {
    && t.runs == s.runs && t.completions == s.completions
    && forall key :: RunningOf(t.current, t.workers, key) == RunningOf(s.current, s.workers, key)
  }

  lemma {:induction false} RunsKept(c: Config, s: State, t: State)
    requires RunsOk(c, s) && LogOk(c, s) && CompletionsOk(c, s) && SameRuns(s, t)
    requires forall key :: KeyLog(c, t.log, key) == KeyLog(c, s.log, key)
    ensures RunsOk(c, t) && LogOk(c, t) && CompletionsOk(c, t)
  {
  }

  ghost predicate SamePipelines(s: State, t: State) {
    forall key :: Pipeline(t, key) == Pipeline(s, key)
  }

  lemma OrderKept(c: Config, s: State, t: State)
    requires OrderOk(c, s) && PipelineOk(c, s) && SamePipelines(s, t) && |t.routes| == |s.routes|
    requires forall q :: 0 <= q < |s.routes| ==>
               && CarriedIndex(t.routes[q].phase) == CarriedIndex(s.routes[q].phase)
               && t.routes[q].taken == s.routes[q].taken
    ensures OrderOk(c, t) && PipelineOk(c, t)
  {
    forall key, q: nat | q < |t.routes| ensures OrderAt(c, t, key, q) {
      assert OrderAt(c, s, key, q);
    }
  }

  /** `t` is `s` with route `r` replaced, as far as the order of jobs is concerned. */
  ghost predicate RouteMoved(s: State, t: State, r: nat) {
    r < |s.routes| == |t.routes| && forall q :: 0 <= q < |s.routes| && q != r ==> t.routes[q] == s.routes[q]
  }

  lemma OrderTakeAt(c: Config, s: State, t: State, r: nat, key: Key)
    requires r < |s.routes| && r < |t.routes| && OrderAt(c, s, key, r) && Pipeline(t, key) == Pipeline(s, key)
    requires t.routes[r].taken == s.routes[r].taken + 1
    requires CarriedIndex(s.routes[r].phase) == None
    requires var i := s.routes[r].taken;
             CarriedIndex(t.routes[r].phase) == if KeyOf(c, Job(r, i)).Some? then Some(i) else None
    ensures OrderAt(c, t, key, r)
  {
  }

  lemma OrderTake(c: Config, s: State, t: State, r: nat)
    requires OrderOk(c, s) && PipelineOk(c, s) && SamePipelines(s, t) && RouteMoved(s, t, r)
    requires t.routes[r].taken == s.routes[r].taken + 1
    requires CarriedIndex(s.routes[r].phase) == None
    requires var i := s.routes[r].taken;
             CarriedIndex(t.routes[r].phase) == if KeyOf(c, Job(r, i)).Some? then Some(i) else None
    ensures OrderOk(c, t) && PipelineOk(c, t)
  {
    forall key, q: nat | q < |t.routes| ensures OrderAt(c, t, key, q) {
      assert OrderAt(c, s, key, q);
      if q == r {
        OrderTakeAt(c, s, t, r, key);
      }
    }
  }

  /** A job goes to the end of the pipeline of its key, and of no other. */
  ghost predicate Extends(c: Config, s: State, t: State, job: Job) {
    forall key :: Pipeline(t, key) == Pipeline(s, key) + if KeyOf(c, job) == Some(key) then [job] else []
  }

  lemma SendExtendsPipeline(c: Config, s: State, r: nat)
    requires WorkersOk(c, s) && |s.routes| == |c.routes| && EnabledRoute(c, s, r, Send)
    requires SenderOk(c, s.workers, r, s.routes[r].phase)
    ensures Extends(c, s, ApplyRoute(c, s, r, Send), Job(r, s.routes[r].phase.index))
  {
  }

  lemma SendStartsNothing(c: Config, s: State, r: nat)
    requires |s.routes| == |c.routes| && EnabledRoute(c, s, r, Send)
    ensures SameRuns(s, ApplyRoute(c, s, r, Send))
  {
  }

  lemma OrderSendOwn(c: Config, s: State, t: State, r: nat, i: nat, key: Key)
    requires r < |s.routes| == |t.routes| && OrderAt(c, s, key, r)
    requires Pipeline(t, key) == Pipeline(s, key) + if KeyOf(c, Job(r, i)) == Some(key) then [Job(r, i)] else []
    requires t.routes[r].taken == s.routes[r].taken
    requires CarriedIndex(s.routes[r].phase) == Some(i) && CarriedIndex(t.routes[r].phase) == None
    ensures OrderAt(c, t, key, r)
  {
    var pipeline, placed := Pipeline(s, key), ByRoute(Pipeline(s, key), r);
    assert Carried(c, r, t.routes[r].phase, key) == [];
    assert pipeline + [] == pipeline && placed + [] == placed && (placed + [i]) + [] == placed + [i];
    ByRouteAppend(pipeline, Job(r, i), r);
  }

  lemma OrderSendOther(c: Config, s: State, t: State, r: nat, i: nat, key: Key, q: nat)
    requires q < |s.routes| == |t.routes| && q != r && OrderAt(c, s, key, q) && t.routes[q] == s.routes[q]
    requires Pipeline(t, key) == Pipeline(s, key) + if KeyOf(c, Job(r, i)) == Some(key) then [Job(r, i)] else []
    ensures OrderAt(c, t, key, q)
  {
    var pipeline, placed := Pipeline(s, key), ByRoute(Pipeline(s, key), q);
    assert pipeline + [] == pipeline && placed + [] == placed;
    ByRouteAppend(pipeline, Job(r, i), q);
  }

  lemma OrderSend(c: Config, s: State, t: State, r: nat, i: nat)
    requires OrderOk(c, s) && PipelineOk(c, s) && Extends(c, s, t, Job(r, i)) && RouteMoved(s, t, r)
    requires t.routes[r].taken == s.routes[r].taken
    requires CarriedIndex(s.routes[r].phase) == Some(i) && CarriedIndex(t.routes[r].phase) == None
    ensures OrderOk(c, t) && PipelineOk(c, t)
  {
    forall key, q: nat | q < |t.routes| ensures OrderAt(c, t, key, q) {
      assert OrderAt(c, s, key, q);
      if q == r {
        OrderSendOwn(c, s, t, r, i, key);
      } else {
        OrderSendOther(c, s, t, r, i, key, q);
      }
    }
  }

  lemma JobsTake(c: Config, s: State, r: nat)
    requires RoutesOk(c, s) && Jobs(c, s) && EnabledRoute(c, s, r, Take)
    ensures Jobs(c, ApplyRoute(c, s, r, Take))
  {
    var t := ApplyRoute(c, s, r, Take);
    PendingRoute(c, s, r, Take);
    assert forall key :: RunsOf(t, key) == RunsOf(s, key);
    OrderTake(c, s, t, r);
    RunsKept(c, s, t);
  }

  lemma JobsSend(c: Config, s: State, r: nat)
    requires RoutesOk(c, s) && WorkersOk(c, s) && Jobs(c, s) && EnabledRoute(c, s, r, Send)
    requires SenderOk(c, s.workers, r, s.routes[r].phase)
    ensures Jobs(c, ApplyRoute(c, s, r, Send))
  {
    var t := ApplyRoute(c, s, r, Send);
    PendingRoute(c, s, r, Send);
    SendExtendsPipeline(c, s, r);
    SendStartsNothing(c, s, r);
    OrderSend(c, s, t, r, s.routes[r].phase.index);
    RunsKept(c, s, t);
  }

  /** Steps of a route that neither read nor hand over a message. */
  lemma JobsBetween(c: Config, s: State, r: nat, act: RouteStep)
    requires RoutesOk(c, s) && Jobs(c, s) && EnabledRoute(c, s, r, act) && !act.Take? && !act.Send?
    ensures Jobs(c, ApplyRoute(c, s, r, act))
  {
    PendingRoute(c, s, r, act);
    BetweenKeeps(c, s, r, act);
    Unmoved(c, s, ApplyRoute(c, s, r, act));
  }

  lemma {:induction false} InlineSilent(c: Config, s: State, r: nat)
    requires RoutesOk(c, s) && EnabledRoute(c, s, r, EmitInline)
    ensures forall key :: KeyLog(c, ApplyRoute(c, s, r, EmitInline).log, key) == KeyLog(c, s.log, key)
  {
    var t := ApplyRoute(c, s, r, EmitInline);
    assert PhaseOk(c, r, s.routes[r]);
    forall key ensures KeyLog(c, t.log, key) == KeyLog(c, s.log, key) {
      KeyLogAppend(c, s.log, t.log[|s.log|], key);
    }
  }

  lemma BetweenMoves(c: Config, s: State, r: nat, act: RouteStep)
    requires RoutesOk(c, s) && EnabledRoute(c, s, r, act) && !act.Take? && !act.Send?
    ensures var t := ApplyRoute(c, s, r, act);
            && t.routes == s.routes[r := t.routes[r]] && t.routes[r].taken == s.routes[r].taken
            && CarriedIndex(t.routes[r].phase) == CarriedIndex(s.routes[r].phase)
            && t.workers == s.workers && t.current == s.current && t.runs == s.runs && t.completions == s.completions
            && (!act.EmitInline? ==> t.log == s.log)
  {
  }

  lemma {:induction false} BetweenKeeps(c: Config, s: State, r: nat, act: RouteStep)
    requires RoutesOk(c, s) && EnabledRoute(c, s, r, act) && !act.Take? && !act.Send?
    ensures var t := ApplyRoute(c, s, r, act);
            && |t.routes| == |s.routes| && SamePipelines(s, t) && SameRuns(s, t)
            && (forall key :: KeyLog(c, t.log, key) == KeyLog(c, s.log, key))
            && (forall q :: 0 <= q < |s.routes| ==>
                  && CarriedIndex(t.routes[q].phase) == CarriedIndex(s.routes[q].phase)
                  && t.routes[q].taken == s.routes[q].taken)
  {
    BetweenMoves(c, s, r, act);
    SameWork(s, ApplyRoute(c, s, r, act));
    if act.EmitInline? {
      InlineSilent(c, s, r);
    }
  }

  lemma SameWork(s: State, t: State)
    requires t.runs == s.runs && t.completions == s.completions
    requires forall key :: && QueueOf(t.current, t.workers, key) == QueueOf(s.current, s.workers, key)
                           && RunningOf(t.current, t.workers, key) == RunningOf(s.current, s.workers, key)
    ensures SamePipelines(s, t) && SameRuns(s, t)
  {
  }

  lemma {:induction false} Unmoved(c: Config, s: State, t: State)
    requires Jobs(c, s) && PendingOk(c, t) && |t.routes| == |s.routes|
    requires SamePipelines(s, t) && SameRuns(s, t)
    requires forall key :: KeyLog(c, t.log, key) == KeyLog(c, s.log, key)
    requires forall q :: 0 <= q < |s.routes| ==>
               && CarriedIndex(t.routes[q].phase) == CarriedIndex(s.routes[q].phase)
               && t.routes[q].taken == s.routes[q].taken
    ensures Jobs(c, t)
  {
    OrderKept(c, s, t);
    RunsKept(c, s, t);
  }

  lemma JobsRoute(c: Config, s: State, r: nat, act: RouteStep)
    requires RoutesOk(c, s) && WorkersOk(c, s) && Jobs(c, s) && EnabledRoute(c, s, r, act)
    requires SenderOk(c, s.workers, r, s.routes[r].phase)
    ensures Jobs(c, ApplyRoute(c, s, r, act))
  {
    if act.Take? {
      JobsTake(c, s, r);
    } else if act.Send? {
      JobsSend(c, s, r);
    } else {
      JobsBetween(c, s, r, act);
    }
  }

  lemma {:induction false} EndedAppend(runs: seq<Run>, run: Run, job: Job)
    ensures Ended(runs + [run], job) == Ended(runs, job) + if run.job == job && !run.ending.Unfinished? then 1 else 0
  {
  }

  /** `t` is `s` after worker `g`, the live one of its key, changed its queue, its running job and
      the runs of its key. */
  ghost predicate WorkerMoved(s: State, t: State, g: nat) {
    && g in s.workers && g in t.workers && t.routes == s.routes && t.current == s.current
    && t.workers == s.workers[g := t.workers[g]] && t.workers[g].key == s.workers[g].key
    && s.workers[g].key in s.current && s.current[s.workers[g].key] == g
    && forall key :: key != s.workers[g].key ==> RunsOf(t, key) == RunsOf(s, key)
  }

  lemma OtherKeys(c: Config, s: State, t: State, g: nat)
    requires WorkersOk(c, s) && WorkerMoved(s, t, g)
    ensures forall key :: key != s.workers[g].key ==>
              && Pipeline(t, key) == Pipeline(s, key)
              && RunningOf(t.current, t.workers, key) == RunningOf(s.current, s.workers, key)
  {
  }

  /** What is to be shown of a worker step: the pipeline of its key is kept, its runs stay in
      order, and log, runs and completions agree on that key. */
  lemma JobsWorkerMoved(c: Config, s: State, t: State, g: nat)
    requires WorkersOk(c, s) && Jobs(c, s) && WorkerMoved(s, t, g)
    requires Pipeline(t, s.workers[g].key) == Pipeline(s, s.workers[g].key)
    requires RunsAt(c, RunsOf(t, s.workers[g].key), t.workers[g].running)
    requires LogOk(c, t)
    requires forall job :: job in s.completions ==> job in t.completions
    requires CompletionsOk(c, t)
    ensures Jobs(c, t)
  {
    OtherKeys(c, s, t, g);
    OrderKept(c, s, t);
    forall key ensures RunsAt(c, RunsOf(t, key), RunningOf(t.current, t.workers, key)) {
      assert RunsAt(c, RunsOf(s, key), RunningOf(s.current, s.workers, key));
    }
  }

  lemma JobsStart(c: Config, s: State, g: nat)
    requires WorkersOk(c, s) && Jobs(c, s) && EnabledWorker(c, s, g, Start)
    ensures Jobs(c, ApplyWorker(c, s, g, Start))
  {
    var t, key, job := ApplyWorker(c, s, g, Start), s.workers[g].key, s.workers[g].queue[0];
    var run := Run(job, 0, Unfinished);
    assert RunsOf(t, key) == RunsOf(s, key) + [run];
    StartKeepsPipeline(s, t, key, s.workers[g], job);
    assert job in Pipeline(s, key) && KeyOf(c, job) == Some(key);
    assert RunsAt(c, RunsOf(s, key), None);
    assert RunOk(c, run);
    RunsAppended(c, RunsOf(s, key), Progress(job, 0));
    StartSilent(c, s, t, key, run);
    JobsWorkerMoved(c, s, t, g);
  }

  lemma RunsAppended(c: Config, runs: seq<Run>, p: Progress)
    requires RunsAt(c, runs, None) && RunOk(c, Run(p.job, p.done, Unfinished))
    ensures RunsAt(c, runs + [Run(p.job, p.done, Unfinished)], Some(p))
  {
  }

  lemma RunsRetouched(c: Config, runs: seq<Run>, p: Progress, run: Run, running: Option<Progress>)
    requires RunsAt(c, runs, Some(p)) && RunOk(c, run)
    requires match running
             case Some(q) => run == Run(q.job, q.done, Unfinished)
             case None => !run.ending.Unfinished?
    ensures RunsAt(c, runs[|runs| - 1 := run], running)
  {
  }

  lemma StartKeepsPipeline(s: State, t: State, key: Key, w: Worker, job: Job)
    requires w.queue != [] && w.queue[0] == job
    requires QueueOf(s.current, s.workers, key) == w.queue && QueueOf(t.current, t.workers, key) == w.queue[1..]
    requires RunsOf(t, key) == RunsOf(s, key) + [Run(job, 0, Unfinished)]
    ensures Pipeline(t, key) == Pipeline(s, key) && job in Pipeline(s, key)
  {
  }

  lemma StartSilent(c: Config, s: State, t: State, key: Key, run: Run)
    requires LogOk(c, s) && CompletionsOk(c, s) && RunOk(c, run)
    requires t.log == s.log && t.completions == s.completions && run.done == 0 && run.ending.Unfinished?
    requires RunsOf(t, key) == RunsOf(s, key) + [run]
    requires forall k :: k != key ==> RunsOf(t, k) == RunsOf(s, k)
    ensures LogOk(c, t) && CompletionsOk(c, t)
  {
    FlattenAppend(c, RunsOf(s, key), run);
    forall other: Job ensures t.completions[other] == EndedRuns(c, t, other) {
      EndedAppend(RunsOf(s, key), run, other);
    }
  }

  /** Replacing the run under way by one of the same job. */
  lemma LastRun(c: Config, runs: seq<Run>, run: Run, job: Job)
    requires runs != [] && runs[|runs| - 1].job == run.job && runs[|runs| - 1].ending.Unfinished?
    ensures var before := runs[..|runs| - 1];
            && runs[|runs| - 1 := run] == before + [run]
            && RunJobs(runs[|runs| - 1 := run]) == RunJobs(runs)
            && Flatten(c, runs) == Flatten(c, before) + Emitted(c, runs[|runs| - 1])
            && Flatten(c, runs[|runs| - 1 := run]) == Flatten(c, before) + Emitted(c, run)
            && Ended(runs[|runs| - 1 := run], job)
               == Ended(runs, job) + if run.job == job && !run.ending.Unfinished? then 1 else 0
  {
  }

  lemma CompletionsRetouched(c: Config, s: State, t: State, key: Key, run: Run)
    requires CompletionsOk(c, s) && KeyOf(c, run.job) == Some(key)
    requires var runs := RunsOf(s, key);
             && runs != [] && runs[|runs| - 1].job == run.job && runs[|runs| - 1].ending.Unfinished?
             && RunsOf(t, key) == runs[|runs| - 1 := run]
    requires forall k :: k != key ==> RunsOf(t, k) == RunsOf(s, k)
    requires t.completions == s.completions + if run.ending.Unfinished? then multiset{} else multiset{run.job}
    ensures CompletionsOk(c, t)
  {
  }

  /** The facts about the run under way that a step of its worker needs. */
  lemma UnderWay(c: Config, s: State, g: nat)
    requires WorkersOk(c, s) && RunsOk(c, s) && PipelineOk(c, s)
    requires g in s.workers && !s.workers[g].mode.Done? && s.workers[g].running.Some?
    ensures var runs, p := RunsOf(s, s.workers[g].key), s.workers[g].running.value;
            && RunsAt(c, runs, Some(p)) && runs[|runs| - 1] == Run(p.job, p.done, Unfinished)
            && KeyOf(c, p.job) == Some(s.workers[g].key)
  {
  }

  lemma FlattenRetouched(c: Config, runs: seq<Run>, run: Run, e: Event)
    requires runs != [] && runs[|runs| - 1].job == run.job && runs[|runs| - 1].ending.Unfinished?
    requires Emitted(c, run) == Emitted(c, runs[|runs| - 1]) + [e]
    ensures Flatten(c, runs[|runs| - 1 := run]) == Flatten(c, runs) + [e]
  {
    LastRun(c, runs, run, run.job);
    var before := Flatten(c, runs[..|runs| - 1]);
    assert before + (Emitted(c, runs[|runs| - 1]) + [e]) == before + Emitted(c, runs[|runs| - 1]) + [e];
  }

  lemma LogRetouched(c: Config, s: State, t: State, key: Key, run: Run, e: Event)
    requires LogOk(c, s) && KeyOf(c, run.job) == Some(key) && e.job == run.job && t.log == s.log + [e]
    requires var runs := RunsOf(s, key);
             && runs != [] && runs[|runs| - 1].job == run.job && runs[|runs| - 1].ending.Unfinished?
             && RunsOf(t, key) == runs[|runs| - 1 := run]
             && Emitted(c, run) == Emitted(c, runs[|runs| - 1]) + [e]
    requires forall k :: k != key ==> RunsOf(t, k) == RunsOf(s, k)
    ensures LogOk(c, t)
  {
    FlattenRetouched(c, RunsOf(s, key), run, e);
    forall k ensures KeyLog(c, t.log, k) == Flatten(c, RunsOf(t, k)) {
      KeyLogAppend(c, s.log, e, k);
      assert KeyLog(c, s.log, k) == Flatten(c, RunsOf(s, k));
      assert KeyLog(c, s.log, k) + [] == KeyLog(c, s.log, k);
    }
  }

  lemma PipelineRetouched(c: Config, s: State, t: State, key: Key, run: Run)
    requires QueueOf(t.current, t.workers, key) == QueueOf(s.current, s.workers, key)
    requires var runs := RunsOf(s, key);
             && runs != [] && runs[|runs| - 1].job == run.job && runs[|runs| - 1].ending.Unfinished?
             && RunsOf(t, key) == runs[|runs| - 1 := run]
    ensures Pipeline(t, key) == Pipeline(s, key)
  {
  }

  lemma EmittedGrows(c: Config, job: Job, done: nat)
    requires ValidJob(c, job) && done < |JobScript(c, job)|
    ensures RunOk(c, Run(job, done + 1, Unfinished))
    ensures Emitted(c, Run(job, done + 1, Unfinished))
         == Emitted(c, Run(job, done, Unfinished)) + [Event(job, JobScript(c, job)[done])]
  {
  }

  /** `t` is `s` after the job `p` running for worker `g` emitted its next effect. */
  ghost predicate EmittedNext(c: Config, s: State, t: State, g: nat, p: Progress) {
    && g in s.workers && !s.workers[g].mode.Done? && ValidJob(c, p.job) && p.done < |JobScript(c, p.job)|
    && var key, runs := s.workers[g].key, RunsOf(s, s.workers[g].key);
    && RunsAt(c, runs, Some(p)) && KeyOf(c, p.job) == Some(key)
    && RunsOf(t, key) == runs[|runs| - 1 := Run(p.job, p.done + 1, Unfinished)]
    && (forall k :: k != key ==> RunsOf(t, k) == RunsOf(s, k))
    && t.workers == s.workers[g := s.workers[g].(running := Some(Progress(p.job, p.done + 1)))]
    && t.log == s.log + [Event(p.job, JobScript(c, p.job)[p.done])]
    && t.completions == s.completions && t.routes == s.routes && t.current == s.current
  }

  lemma EmitEffect(c: Config, s: State, g: nat)
    requires WorkersOk(c, s) && RunsOk(c, s) && PipelineOk(c, s)
    requires EnabledWorker(c, s, g, Emit) && !s.workers[g].mode.Done?
    ensures EmittedNext(c, s, ApplyWorker(c, s, g, Emit), g, s.workers[g].running.value)
  {
  }

  lemma JobsEmit(c: Config, s: State, g: nat)
    requires WorkersOk(c, s) && Jobs(c, s) && EnabledWorker(c, s, g, Emit) && !s.workers[g].mode.Done?
    ensures Jobs(c, ApplyWorker(c, s, g, Emit))
  {
    EmitEffect(c, s, g);
    JobsEmitted(c, s, ApplyWorker(c, s, g, Emit), g, s.workers[g].running.value);
  }

  lemma JobsEmitted(c: Config, s: State, t: State, g: nat, p: Progress)
    requires WorkersOk(c, s) && Jobs(c, s) && EmittedNext(c, s, t, g, p)
    ensures Jobs(c, t)
  {
    EmitRetouches(c, s, t, g, p, Event(p.job, JobScript(c, p.job)[p.done]));
    JobsWorkerMoved(c, s, t, g);
  }

  lemma EmitRetouches(c: Config, s: State, t: State, g: nat, p: Progress, e: Event)
    requires LogOk(c, s) && CompletionsOk(c, s) && g in s.workers && g in t.workers
    requires var key, runs := s.workers[g].key, RunsOf(s, s.workers[g].key);
             && RunsAt(c, runs, Some(p)) && KeyOf(c, p.job) == Some(key)
             && ValidJob(c, p.job) && p.done < |JobScript(c, p.job)|
             && e == Event(p.job, JobScript(c, p.job)[p.done])
             && RunsOf(t, key) == runs[|runs| - 1 := Run(p.job, p.done + 1, Unfinished)]
             && QueueOf(t.current, t.workers, key) == QueueOf(s.current, s.workers, key)
             && t.workers[g].running == Some(Progress(p.job, p.done + 1))
             && forall k :: k != key ==> RunsOf(t, k) == RunsOf(s, k)
    requires t.log == s.log + [e] && t.completions == s.completions
    ensures LogOk(c, t) && CompletionsOk(c, t)
    ensures Pipeline(t, s.workers[g].key) == Pipeline(s, s.workers[g].key)
    ensures RunsAt(c, RunsOf(t, s.workers[g].key), t.workers[g].running)
  {
    var key, run := s.workers[g].key, Run(p.job, p.done + 1, Unfinished);
    EmittedGrows(c, p.job, p.done);
    LogRetouched(c, s, t, key, run, e);
    CompletionsRetouched(c, s, t, key, run);
    PipelineRetouched(c, s, t, key, run);
    RunsRetouched(c, RunsOf(s, key), p, run, Some(Progress(p.job, p.done + 1)));
  }

  lemma JobsEndRun(c: Config, s: State, g: nat, ending: Ending)
    requires WorkersOk(c, s) && Jobs(c, s) && g in s.workers && !s.workers[g].mode.Done?
    requires Busy(c, s.workers[g]) && !ending.Unfinished?
    requires ending.Completed? ==>
               s.workers[g].running.value.done == |JobScript(c, s.workers[g].running.value.job)|
    ensures Jobs(c, EndRun(s, g, ending))
  {
    var t, key, p := EndRun(s, g, ending), s.workers[g].key, s.workers[g].running.value;
    var runs, run := RunsOf(s, key), Run(p.job, p.done, ending);
    UnderWay(c, s, g);
    assert RunsOf(t, key) == runs[|runs| - 1 := run];
    CompletionsRetouched(c, s, t, key, run);
    PipelineRetouched(c, s, t, key, run);
    RunsRetouched(c, runs, p, run, None);
    LastRun(c, runs, run, p.job);
    assert Emitted(c, run) == Emitted(c, runs[|runs| - 1]);
    JobsWorkerMoved(c, s, t, g);
  }

  lemma JobsWorker(c: Config, s: State, g: nat, task: WorkerStep)
    requires WorkersOk(c, s) && Jobs(c, s) && EnabledWorker(c, s, g, task)
    ensures Jobs(c, ApplyWorker(c, s, g, task))
  {
    var t := ApplyWorker(c, s, g, task);
    assert WorkerOk(c, s.workers[g]);
    match task {
      case Start => JobsStart(c, s, g);
      case Emit => JobsEmit(c, s, g);
      case Complete => JobsEndRun(c, s, g, Completed);
      case Panic => JobsEndRun(c, s, g, Panicked);
      case _ => JobsModeChange(c, s, t, g);
    }
  }

  /** Nobody's messages were consumed or submitted. */
  lemma PendingKept(c: Config, s: State, t: State)
    requires PendingOk(c, s) && t.completions == s.completions && |t.routes| == |s.routes|
    requires forall q :: 0 <= q < |s.routes| ==> SameMessages(s.routes[q], t.routes[q])
    ensures PendingOk(c, t)
  {
  }

  predicate SameMessages(x: Route, y: Route) {
    && CarriedIndex(y.phase) == CarriedIndex(x.phase) && y.taken == x.taken && y.pending == x.pending
    && y.phase.Aborted? == x.phase.Aborted?
  }

  lemma JobsModeChange(c: Config, s: State, t: State, g: nat)
    requires Jobs(c, s) && g in s.workers && g in t.workers
    requires t.workers == s.workers[g := s.workers[g].(mode := t.workers[g].mode)]
    requires t.routes == s.routes && t.current == s.current && t.runs == s.runs
    requires t.log == s.log && t.completions == s.completions
    ensures Jobs(c, t)
  {
    SameWork(s, t);
    PendingKept(c, s, t);
    Unmoved(c, s, t);
  }

  /** Nothing that concerns jobs changes, except for the worker that is spawned. */
  ghost predicate SameJobs(s: State, t: State) {
    && t.runs == s.runs && t.log == s.log && t.completions == s.completions && |t.routes| == |s.routes|
    && forall q :: 0 <= q < |s.routes| ==> SameMessages(s.routes[q], t.routes[q])
  }

  lemma ReactionSameJobs(s: State, t: State, key: Key, x: Reaction)
    requires t.routes == s.routes && t.runs == s.runs && t.log == s.log && t.completions == s.completions
    ensures SameJobs(s, ApplyReaction(t, key, x))
  {
  }

  lemma RegistrySameJobs(s: State)
    requires s.commands != []
    ensures SameJobs(s, ApplyRegistry(s)) && SameJobs(Forget(s, s.commands[0].key), ApplyRegistry(s))
  {
    var x := React(s.registry, s.commands[0], OpenRequests(s));
    ReactionSameJobs(s, s.(commands := s.commands[1..]), s.commands[0].key, x);
    ReactionSameJobs(Forget(s, s.commands[0].key), s.(commands := s.commands[1..]), s.commands[0].key, x);
  }

  lemma JobsSpawned(c: Config, s: State, t: State, key: Key)
    requires WorkersOk(c, s) && Jobs(c, s) && Spawned(s, t, key) && SameJobs(s, t)
    ensures Jobs(c, t)
  {
    SpawnQueues(c, s, t, key);
    SameWork(s, t);
    PendingKept(c, s, t);
    Unmoved(c, s, t);
  }

  /** The queue of the generation before is empty, and so is the new one. */
  lemma SpawnQueues(c: Config, s: State, t: State, key: Key)
    requires WorkersOk(c, s) && Spawned(s, t, key)
    ensures forall k :: && QueueOf(t.current, t.workers, k) == QueueOf(s.current, s.workers, k)
                        && RunningOf(t.current, t.workers, k) == RunningOf(s.current, s.workers, k)
  {
  }

  lemma AcquireSpawned(s: State, key: Key, q: nat)
    requires EntriesOk(s) && s.registryUp && s.commands != [] && s.commands[0] == Acquire(key, q)
    requires key !in s.registry.entries
    ensures Spawned(s, ApplyRegistry(s), key)
  {
  }

  lemma JobsAcquire(c: Config, s: State, key: Key, q: nat)
    requires WorkersOk(c, s) && EntriesOk(s) && Jobs(c, s) && s.registryUp
    requires s.commands != [] && s.commands[0] == Acquire(key, q)
    ensures Jobs(c, ApplyRegistry(s))
  {
    RegistrySameJobs(s);
    if key !in s.registry.entries {
      AcquireSpawned(s, key, q);
      JobsSpawned(c, s, ApplyRegistry(s), key);
    } else {
      JobsQuiet(c, s, ApplyRegistry(s));
    }
  }

  lemma JobsLetGo(c: Config, s: State, key: Key, g: nat)
    requires Jobs(c, s)
    requires s.commands != [] && s.commands[0] == Retired(key, g) && IsRetiring(s.registry, key, g)
    requires OpenWaiters(s.registry.entries[key].waiters, OpenRequests(s)) == []
    ensures Jobs(c, ApplyRegistry(s))
  {
    JobsQuiet(c, s, ApplyRegistry(s));
  }

  lemma ForgetWorkers(c: Config, s: State, key: Key)
    requires WorkersOk(c, s) && s.commands != []
    ensures WorkersOk(c, Forget(s, key))
  {
  }

  lemma JobsReplaced(c: Config, s: State, key: Key, g: nat)
    requires WorkersOk(c, s) && Jobs(c, s) && s.registryUp
    requires s.commands != [] && s.commands[0] == Retired(key, g) && IsRetiring(s.registry, key, g)
    requires forall h :: h in s.workers && s.workers[h].key == key ==> s.workers[h].mode.Done?
    requires OpenWaiters(s.registry.entries[key].waiters, OpenRequests(s)) != []
    ensures Jobs(c, ApplyRegistry(s))
  {
    JobsQuiet(c, s, Forget(s, key));
    ForgetWorkers(c, s, key);
    ClaimedSpawns(s, key, g);
    RegistrySameJobs(s);
    JobsSpawned(c, Forget(s, key), ApplyRegistry(s), key);
  }

  lemma JobsRetired(c: Config, s: State, key: Key, g: nat)
    requires WorkersOk(c, s) && Jobs(c, s) && s.registryUp
    requires s.commands != [] && s.commands[0] == Retired(key, g) && IsRetiring(s.registry, key, g)
    requires forall h :: h in s.workers && s.workers[h].key == key ==> s.workers[h].mode.Done?
    ensures Jobs(c, ApplyRegistry(s))
  {
    if OpenWaiters(s.registry.entries[key].waiters, OpenRequests(s)) == [] {
      JobsLetGo(c, s, key, g);
    } else {
      JobsReplaced(c, s, key, g);
    }
  }

  lemma JobsRegistry(c: Config, s: State)
    requires Control(c, s) && Jobs(c, s) && s.registryUp && s.commands != []
    ensures Jobs(c, ApplyRegistry(s))
  {
    match s.commands[0] {
      case Acquire(key, q) => JobsAcquire(c, s, key, q);
      case BeginRetirement(key, g) =>
        BeginFindsActive(c, s, key, g);
        JobsModeChange(c, s, ApplyRegistry(s), g);
      case Retired(key, g) =>
        RetiredFindsDrained(c, s, key, g);
        JobsRetired(c, s, key, g);
    }
  }

  lemma JobsQuiet(c: Config, s: State, t: State)
    requires Jobs(c, s) && t.workers == s.workers && t.current == s.current && SameJobs(s, t)
    ensures Jobs(c, t)
  {
    SameWork(s, t);
    PendingKept(c, s, t);
    Unmoved(c, s, t);
  }

  lemma JobsStep(c: Config, s: State, step: Step)
    requires Control(c, s) && Jobs(c, s) && Enabled(c, s, step)
    ensures Jobs(c, Apply(c, s, step))
  {
    match step {
      case OfRoute(r, act) => JobsRoute(c, s, r, act);
      case OfWorker(g, task) => JobsWorker(c, s, g, task);
      case HandleCommand => JobsRegistry(c, s);
      case DropHandles => JobsQuiet(c, s, Apply(c, s, step));
      case StopRegistry => JobsQuiet(c, s, Apply(c, s, step));
    }
  }
}
