/** Per key, partitioned execution refines the sequential loop. */
module PartitionRefinement {
  import opened Options
  import opened RouteJob
  import opened PartitionRegistry
  import opened PartitionModel
  import opened PartitionControl
  import opened PartitionJobs
  import opened PartitionTheorems

  ghost predicate PanicFree(s: State) {
    forall key, k :: 0 <= k < |RunsOf(s, key)| ==> !RunsOf(s, key)[k].ending.Panicked?
  }

  /** Route `r` processes messages with these outcomes under binding `b`. */
  ghost predicate Processes(c: Config, r: nat, b: Binding, outcomes: seq<Outcome>) {
    && r < |c.routes| && |outcomes| == |c.routes[r].source|
    && forall i :: 0 <= i < |outcomes| ==>
         c.routes[r].source[i].effects == EffectsOf(b, c.routes[r].source[i].key, outcomes[i])
  }

  function AsEvents(r: nat, log: seq<Logged>): (events: seq<Event>)
    ensures |events| == |log|
    ensures forall k :: 0 <= k < |log| ==> events[k] == Event(Job(r, log[k].index), log[k].effect)
  {
    seq(|log|, k requires 0 <= k < |log| => Event(Job(r, log[k].index), log[k].effect))
  }

  /** The events of one route. */
  function RouteLog(log: seq<Event>, r: nat): seq<Event> {
    if log == [] then []
    else
      var last := log[|log| - 1];
      RouteLog(log[..|log| - 1], r) + if last.job.route == r then [last] else []
  }

  /** The whole scripts of some jobs of a route, one after the other. */
  function Scripts(c: Config, r: nat, indices: seq<nat>): seq<Event> {
    if indices == [] then []
    else Scripts(c, r, indices[..|indices| - 1]) + WholeRun(c, Job(r, indices[|indices| - 1]))
  }

  function WholeRun(c: Config, job: Job): seq<Event> {
    if ValidJob(c, job) then Emitted(c, Run(job, |JobScript(c, job)|, Completed)) else []
  }

  lemma {:induction false} KeyLogConcat(c: Config, a: seq<Event>, b: seq<Event>, key: Key)
    ensures KeyLog(c, a + b, key) == KeyLog(c, a, key) + KeyLog(c, b, key)
  {
    if b == [] {
      assert a + b == a;
    } else {
      var front, last := b[..|b| - 1], b[|b| - 1];
      KeyLogConcat(c, a, front, key);
      assert a + b == (a + front) + [last];
      KeyLogAppend(c, a + front, last, key);
    }
  }

  lemma {:induction false} KeyLogUniform(c: Config, log: seq<Event>, job: Job, key: Key)
    requires forall k :: 0 <= k < |log| ==> log[k].job == job
    ensures KeyLog(c, log, key) == if KeyOf(c, job) == Some(key) then log else []
  {
    if log != [] {
      KeyLogUniform(c, log[..|log| - 1], job, key);
      assert log == log[..|log| - 1] + [log[|log| - 1]];
    }
  }

  lemma {:induction false} RouteLogConcat(a: seq<Event>, b: seq<Event>, r: nat)
    ensures RouteLog(a + b, r) == RouteLog(a, r) + RouteLog(b, r)
  {
    if b == [] {
      assert a + b == a;
    } else {
      var front, last := b[..|b| - 1], b[|b| - 1];
      RouteLogConcat(a, front, r);
      assert a + b == (a + front) + [last];
      assert ((a + front) + [last])[..|a + front|] == a + front;
    }
  }

  lemma {:induction false} RouteLogUniform(log: seq<Event>, job: Job, r: nat)
    requires forall k :: 0 <= k < |log| ==> log[k].job == job
    ensures RouteLog(log, r) == if job.route == r then log else []
  {
    if log != [] {
      RouteLogUniform(log[..|log| - 1], job, r);
      assert log == log[..|log| - 1] + [log[|log| - 1]];
    }
  }

  lemma {:induction false} ScriptsAppend(c: Config, r: nat, indices: seq<nat>, i: nat)
    ensures Scripts(c, r, indices + [i]) == Scripts(c, r, indices) + WholeRun(c, Job(r, i))
  {
  }

  /** For messages with a key, `scripts` are the effects of the messages of route `r`. */
  ghost predicate Agrees(c: Config, r: nat, scripts: seq<seq<Effect>>) {
    && r < |c.routes| && |scripts| == |c.routes[r].source|
    && forall i :: 0 <= i < |scripts| && c.routes[r].source[i].key.Some? ==> scripts[i] == c.routes[r].source[i].effects
  }

  /** One more message of the unpartitioned loop: its whole script if it has the key, else nothing. */
  lemma {:induction false} ChunkOfKey(c: Config, r: nat, scripts: seq<seq<Effect>>, i: nat, key: Key)
    requires Agrees(c, r, scripts) && i < |scripts|
    ensures KeyLog(c, AsEvents(r, Tag(i, scripts[i])), key)
         == if KeyOf(c, Job(r, i)) == Some(key) then WholeRun(c, Job(r, i)) else []
  {
    var chunk := AsEvents(r, Tag(i, scripts[i]));
    KeyLogUniform(c, chunk, Job(r, i), key);
    if KeyOf(c, Job(r, i)) == Some(key) {
      assert chunk == WholeRun(c, Job(r, i));
    }
  }

  lemma AsEventsConcat(r: nat, a: seq<Logged>, b: seq<Logged>)
    ensures AsEvents(r, a + b) == AsEvents(r, a) + AsEvents(r, b)
  {
  }

  lemma OneByOneNext(scripts: seq<seq<Effect>>, n: nat)
    requires n < |scripts|
    ensures OneByOne(scripts, n + 1) == OneByOne(scripts, n) + Tag(n, scripts[n])
  {
  }

  /** The part of the sequential loop's log that belongs to a key: the scripts of its messages. */
  ghost predicate OfKey(c: Config, r: nat, scripts: seq<seq<Effect>>, key: Key, n: nat)
    requires n <= |scripts|
  {
    KeyLog(c, AsEvents(r, OneByOne(scripts, n)), key) == Scripts(c, r, KeyedBelow(c, r, key, n))
  }

  lemma UnpartitionedNone(c: Config, r: nat, scripts: seq<seq<Effect>>, key: Key)
    ensures OfKey(c, r, scripts, key, 0)
  {
    assert OneByOne(scripts, 0) == [] && AsEvents(r, []) == [];
  }

  lemma UnpartitionedNext(c: Config, r: nat, scripts: seq<seq<Effect>>, key: Key, i: nat, n: nat)
    requires Agrees(c, r, scripts) && n == i + 1 <= |scripts| && OfKey(c, r, scripts, key, i)
    ensures OfKey(c, r, scripts, key, n)
  {
    OneByOneNext(scripts, i);
    AsEventsConcat(r, OneByOne(scripts, i), Tag(i, scripts[i]));
    ChunkOfKey(c, r, scripts, i, key);
    ExtendScripts(c, r, key, i, AsEvents(r, OneByOne(scripts, i)), AsEvents(r, Tag(i, scripts[i])));
  }

  lemma {:induction false} UnpartitionedOfKey(c: Config, r: nat, scripts: seq<seq<Effect>>, key: Key, n: nat)
    requires Agrees(c, r, scripts) && n <= |scripts|
    ensures OfKey(c, r, scripts, key, n)
  {
    if n == 0 {
      UnpartitionedNone(c, r, scripts, key);
    } else {
      var i := n - 1;
      UnpartitionedOfKey(c, r, scripts, key, i);
      UnpartitionedNext(c, r, scripts, key, i, n);
    }
  }

  lemma ExtendScripts(c: Config, r: nat, key: Key, i: nat, before: seq<Event>, chunk: seq<Event>)
    requires KeyLog(c, before, key) == Scripts(c, r, KeyedBelow(c, r, key, i))
    requires KeyLog(c, chunk, key) == if KeyOf(c, Job(r, i)) == Some(key) then WholeRun(c, Job(r, i)) else []
    ensures KeyLog(c, before + chunk, key) == Scripts(c, r, KeyedBelow(c, r, key, i + 1))
  {
    KeyLogConcat(c, before, chunk, key);
    KeyedBelowNext(c, r, key, i);
    if KeyOf(c, Job(r, i)) == Some(key) {
      ScriptsAppend(c, r, KeyedBelow(c, r, key, i), i);
    } else {
      assert KeyedBelow(c, r, key, i + 1) == KeyedBelow(c, r, key, i);
    }
  }

  ghost predicate AllDone(runs: seq<Run>, n: nat)
    requires n <= |runs|
  {
    forall k :: 0 <= k < n ==> runs[k].ending.Completed?
  }

  /** One more run keeps the events of a route a prefix of the whole scripts of its jobs. */
  lemma {:induction false} FlattenOfRouteStep(c: Config, before: seq<Run>, run: Run, r: nat)
    requires RunOk(c, run)
    requires RouteLog(Flatten(c, before), r) == Scripts(c, r, ByRoute(RunJobs(before), r))
    ensures RouteLog(Flatten(c, before + [run]), r) <= Scripts(c, r, ByRoute(RunJobs(before + [run]), r))
    ensures run.ending.Completed? ==>
              RouteLog(Flatten(c, before + [run]), r) == Scripts(c, r, ByRoute(RunJobs(before + [run]), r))
  {
    var done, started := Scripts(c, r, ByRoute(RunJobs(before), r)), ByRoute(RunJobs(before), r);
    FlattenSnoc(c, before, run, r);
    StartedSnoc(before, run, r);
    if run.job.route == r {
      ScriptsAppend(c, r, started, run.job.index);
      EmittedOfOneJob(c, run);
      assert run.job == Job(r, run.job.index);
      PrefixUnder(done, Emitted(c, run), WholeRun(c, run.job));
    } else {
      assert done + [] == done && started + [] == started;
    }
  }

  lemma PrefixUnder<T>(a: seq<T>, x: seq<T>, y: seq<T>)
    requires x <= y
    ensures a + x <= a + y
  {
  }

  /** The events of one route among those of finished runs, and then of a last run under way. */
  lemma {:induction false} FlattenOfRoute(c: Config, runs: seq<Run>, r: nat)
    requires forall k :: 0 <= k < |runs| ==> RunOk(c, runs[k])
    requires runs != [] ==> AllDone(runs, |runs| - 1)
    ensures RouteLog(Flatten(c, runs), r) <= Scripts(c, r, ByRoute(RunJobs(runs), r))
    ensures AllDone(runs, |runs|) ==> RouteLog(Flatten(c, runs), r) == Scripts(c, r, ByRoute(RunJobs(runs), r))
  {
    if runs != [] {
      var before, run := runs[..|runs| - 1], runs[|runs| - 1];
      assert AllDone(before, |before|);
      FlattenOfRoute(c, before, r);
      assert runs == before + [run];
      FlattenOfRouteStep(c, before, run, r);
    }
  }

  lemma {:induction false} RouteLogChunk(a: seq<Event>, x: seq<Event>, job: Job, r: nat)
    requires forall k :: 0 <= k < |x| ==> x[k].job == job
    ensures RouteLog(a + x, r) == RouteLog(a, r) + if job.route == r then x else []
  {
    RouteLogConcat(a, x, r);
    RouteLogUniform(x, job, r);
  }

  lemma EmittedOfOneJob(c: Config, run: Run)
    ensures forall k :: 0 <= k < |Emitted(c, run)| ==> Emitted(c, run)[k].job == run.job
    ensures RunOk(c, run) ==> Emitted(c, run) <= WholeRun(c, run.job)
    ensures RunOk(c, run) && run.ending.Completed? ==> Emitted(c, run) == WholeRun(c, run.job)
  {
  }

  lemma {:induction false} FlattenSnoc(c: Config, before: seq<Run>, run: Run, r: nat)
    ensures RouteLog(Flatten(c, before + [run]), r)
         == RouteLog(Flatten(c, before), r) + if run.job.route == r then Emitted(c, run) else []
  {
    FlattenAppend(c, before, run);
    EmittedOfOneJob(c, run);
    RouteLogChunk(Flatten(c, before), Emitted(c, run), run.job, r);
  }

  lemma {:induction false} StartedSnoc(before: seq<Run>, run: Run, r: nat)
    ensures ByRoute(RunJobs(before + [run]), r)
         == ByRoute(RunJobs(before), r) + if run.job.route == r then [run.job.index] else []
  {
    assert RunJobs(before + [run]) == RunJobs(before) + [run.job];
    ByRouteAppend(RunJobs(before), run.job, r);
  }

  lemma {:induction false} ScriptsConcat(c: Config, r: nat, a: seq<nat>, b: seq<nat>)
    ensures Scripts(c, r, a) <= Scripts(c, r, a + b)
  {
    if b == [] {
      assert a + b == a;
    } else {
      ScriptsConcat(c, r, a, b[..|b| - 1]);
      assert a + b == (a + b[..|b| - 1]) + [b[|b| - 1]];
      ScriptsAppend(c, r, a + b[..|b| - 1], b[|b| - 1]);
    }
  }

  lemma {:induction false} KeyedBelowGrows(c: Config, r: nat, key: Key, n: nat, m: nat)
    requires n <= m
    ensures KeyedBelow(c, r, key, n) <= KeyedBelow(c, r, key, m)
  {
    if n < m {
      KeyedBelowGrows(c, r, key, n, m - 1);
    }
  }

  lemma {:induction false} ByRouteConcat(a: seq<Job>, b: seq<Job>, r: nat)
    ensures ByRoute(a + b, r) == ByRoute(a, r) + ByRoute(b, r)
  {
    if b == [] {
      assert a + b == a;
    } else {
      var front, last := b[..|b| - 1], b[|b| - 1];
      ByRouteConcat(a, front, r);
      assert a + b == (a + front) + [last];
      ByRouteAppend(a + front, last, r);
    }
  }

  /** The jobs of a route started for a key are the first messages of its source with that key. */
  lemma {:induction false} StartedFirst(c: Config, s: State, key: Key, r: nat)
    requires Inv(c, s) && r < |s.routes|
    ensures ByRoute(RunJobs(RunsOf(s, key)), r) <= KeyedBelow(c, r, key, |c.routes[r].source|)
  {
    assert OrderAt(c, s, key, r);
    ByRouteConcat(RunJobs(RunsOf(s, key)), QueueOf(s.current, s.workers, key), r);
    KeyedBelowGrows(c, r, key, s.routes[r].taken, |c.routes[r].source|);
  }

  /** In every panic-free run, whatever the interleaving, the retirements and the other routes of
      the partitioner do, the events of a route for a key are a prefix of those the unpartitioned
      loop emits for the messages with that key. */
  lemma {:induction false} PartitionedRefinesSequential(
      c: Config, s: State, key: Key, r: nat, b: Binding, outcomes: seq<Outcome>)
    requires Reachable(c, s) && PanicFree(s) && Processes(c, r, b, outcomes)
    ensures RouteLog(KeyLog(c, s.log, key), r)
         <= KeyLog(c, AsEvents(r, LoopLog(b, outcomes, |outcomes|)), key)
  {
    InvReachable(c, s);
    var runs := RunsOf(s, key);
    assert KeyLog(c, s.log, key) == Flatten(c, runs);
    PanicFreeRuns(c, s, key);
    FlattenOfRoute(c, runs, r);
    StartedFirst(c, s, key, r);
    ScriptsGrow(c, r, ByRoute(RunJobs(runs), r), KeyedBelow(c, r, key, |outcomes|));
    UnpartitionedOfKey(c, r, ScriptsOf(b, outcomes), key, |outcomes|);
  }

  lemma PanicFreeRuns(c: Config, s: State, key: Key)
    requires RunsOk(c, s) && PanicFree(s)
    ensures forall k :: 0 <= k < |RunsOf(s, key)| ==> RunOk(c, RunsOf(s, key)[k])
    ensures RunsOf(s, key) != [] ==> AllDone(RunsOf(s, key), |RunsOf(s, key)| - 1)
  {
  }

  lemma {:induction false} ScriptsGrow(c: Config, r: nat, some: seq<nat>, all: seq<nat>)
    requires some <= all
    ensures Scripts(c, r, some) <= Scripts(c, r, all)
  {
    assert all == some + all[|some|..];
    ScriptsConcat(c, r, some, all[|some|..]);
  }

  /** A route whose loop has ended: all its submitted jobs have completed. */
  lemma FinishedIsCompleted(c: Config, s: State, r: nat, i: nat)
    requires RoutesOk(c, s) && PendingOk(c, s) && FinishOk(c, s) && r < |s.routes| && s.routes[r].phase.Finished?
    requires i < |c.routes[r].source| && KeyOf(c, Job(r, i)).Some?
    ensures s.routes[r].taken == |c.routes[r].source| && Job(r, i) in s.completions
  {
  }

  lemma NothingCounted(xs: seq<nat>)
    requires forall i :: multiset(xs)[i] == 0
    ensures xs == []
  {
    assert xs != [] ==> multiset(xs)[xs[0]] > 0;
  }

  lemma FinishedNotQueued(c: Config, s: State, key: Key, r: nat, i: nat)
    requires Inv(c, s) && r < |s.routes| && s.routes[r].phase.Finished?
    ensures multiset(QueueOf(s.current, s.workers, key))[Job(r, i)] == 0
  {
    var queue := QueueOf(s.current, s.workers, key);
    PlacesOf(c, s, key, r, i);
    if Job(r, i) in Pipeline(s, key) {
      FinishedIsCompleted(c, s, r, i);
      EndedAtMost(RunsOf(s, key), Job(r, i));
    }
    assert Job(r, i) in queue ==> Job(r, i) in Pipeline(s, key);
  }

  lemma FinishedRun(c: Config, s: State, key: Key, r: nat, k: nat)
    requires Inv(c, s) && r < |s.routes| && s.routes[r].phase.Finished?
    requires k < |RunsOf(s, key)| && RunsOf(s, key)[k].job.route == r
    ensures !RunsOf(s, key)[k].ending.Unfinished?
  {
    var runs := RunsOf(s, key);
    assert RunJobs(runs)[k] == runs[k].job && runs[k].job in Pipeline(s, key);
    FinishedIsCompleted(c, s, r, runs[k].job.index);
    EndedAtMost(runs, runs[k].job);
    PlacesOf(c, s, key, r, runs[k].job.index);
  }

  lemma {:induction false} FinishedLeavesNothing(c: Config, s: State, key: Key, r: nat)
    requires Inv(c, s) && r < |s.routes| && s.routes[r].phase.Finished?
    ensures ByRoute(QueueOf(s.current, s.workers, key), r) == []
    ensures forall k :: 0 <= k < |RunsOf(s, key)| && RunsOf(s, key)[k].job.route == r ==>
              !RunsOf(s, key)[k].ending.Unfinished?
  {
    var queue := QueueOf(s.current, s.workers, key);
    forall i ensures multiset(ByRoute(queue, r))[i] == 0 {
      ByRouteCounts(queue, r, i);
      FinishedNotQueued(c, s, key, r, i);
    }
    NothingCounted(ByRoute(queue, r));
    forall k | 0 <= k < |RunsOf(s, key)| && RunsOf(s, key)[k].job.route == r
      ensures !RunsOf(s, key)[k].ending.Unfinished?
    {
      FinishedRun(c, s, key, r, k);
    }
  }

  /** A last run of another route adds nothing. */
  lemma {:induction false} FlattenOfOther(c: Config, before: seq<Run>, run: Run, r: nat)
    requires run.job.route != r
    ensures RouteLog(Flatten(c, before + [run]), r) == RouteLog(Flatten(c, before), r)
    ensures ByRoute(RunJobs(before + [run]), r) == ByRoute(RunJobs(before), r)
  {
    FlattenSnoc(c, before, run, r);
    StartedSnoc(before, run, r);
    assert ByRoute(RunJobs(before), r) + [] == ByRoute(RunJobs(before), r);
    assert RouteLog(Flatten(c, before), r) + [] == RouteLog(Flatten(c, before), r);
  }

  /** Runs of which those of route `r` are all completed. */
  lemma {:induction false} FlattenOfFinished(c: Config, runs: seq<Run>, r: nat)
    requires forall k :: 0 <= k < |runs| ==> RunOk(c, runs[k])
    requires runs != [] ==> AllDone(runs, |runs| - 1)
    requires runs != [] && runs[|runs| - 1].job.route == r ==> runs[|runs| - 1].ending.Completed?
    ensures RouteLog(Flatten(c, runs), r) == Scripts(c, r, ByRoute(RunJobs(runs), r))
  {
    if runs != [] && runs[|runs| - 1].job.route != r {
      var before, run := runs[..|runs| - 1], runs[|runs| - 1];
      assert runs == before + [run] && AllDone(before, |before|);
      FlattenOfRoute(c, before, r);
      FlattenOfOther(c, before, run, r);
    } else {
      FlattenOfRoute(c, runs, r);
    }
  }

  lemma {:induction false} EverythingEmitted(c: Config, s: State, key: Key, r: nat)
    requires Reachable(c, s) && PanicFree(s) && r < |s.routes| == |c.routes| && s.routes[r].phase.Finished?
    ensures RouteLog(KeyLog(c, s.log, key), r) == Scripts(c, r, KeyedBelow(c, r, key, |c.routes[r].source|))
  {
    InvReachable(c, s);
    FinishedLeavesNothing(c, s, key, r);
    PanicFreeRuns(c, s, key);
    FlattenOfFinished(c, RunsOf(s, key), r);
    StartedAll(c, s, key, r);
  }

  /** When a route's loop ends in a panic-free run, each key has seen exactly what the unpartitioned
      loop would have made it see. */
  lemma {:induction false} FinishedRouteDidItAll(
      c: Config, s: State, key: Key, r: nat, b: Binding, outcomes: seq<Outcome>)
    requires Reachable(c, s) && PanicFree(s) && Processes(c, r, b, outcomes)
    requires |s.routes| == |c.routes| && s.routes[r].phase.Finished?
    ensures RouteLog(KeyLog(c, s.log, key), r)
         == KeyLog(c, AsEvents(r, LoopLog(b, outcomes, |outcomes|)), key)
  {
    EverythingEmitted(c, s, key, r);
    UnpartitionedOfKey(c, r, ScriptsOf(b, outcomes), key, |outcomes|);
  }

  lemma {:induction false} StartedAll(c: Config, s: State, key: Key, r: nat)
    requires OrderOk(c, s) && FinishOk(c, s) && r < |s.routes| && s.routes[r].phase.Finished?
    requires ByRoute(QueueOf(s.current, s.workers, key), r) == []
    ensures ByRoute(RunJobs(RunsOf(s, key)), r) == KeyedBelow(c, r, key, |c.routes[r].source|)
  {
    assert OrderAt(c, s, key, r) && RouteFinishOk(c, s.routes[r], r);
    ByRouteConcat(RunJobs(RunsOf(s, key)), QueueOf(s.current, s.workers, key), r);
  }

  /** The effects of one job. */
  function JobEffects(log: seq<Event>, job: Job): seq<Effect> {
    if log == [] then []
    else
      var last := log[|log| - 1];
      JobEffects(log[..|log| - 1], job) + if last.job == job then [last.effect] else []
  }

  lemma {:induction false} JobEffectsConcat(a: seq<Event>, b: seq<Event>, job: Job)
    ensures JobEffects(a + b, job) == JobEffects(a, job) + JobEffects(b, job)
  {
    if b == [] {
      assert a + b == a;
    } else {
      var front, last := b[..|b| - 1], b[|b| - 1];
      JobEffectsConcat(a, front, job);
      assert a + b == (a + front) + [last];
      assert ((a + front) + [last])[..|a + front|] == a + front;
    }
  }

  lemma {:induction false} JobEffectsOfKeyLog(c: Config, log: seq<Event>, job: Job, key: Key)
    requires KeyOf(c, job) == Some(key)
    ensures JobEffects(KeyLog(c, log, key), job) == JobEffects(log, job)
  {
    if log != [] {
      var front, last := log[..|log| - 1], log[|log| - 1];
      JobEffectsOfKeyLog(c, front, job, key);
      if KeyOf(c, last.job) == Some(key) {
        JobEffectsConcat(KeyLog(c, front, key), [last], job);
        assert [last][..0] == [];
      } else {
        assert KeyLog(c, log, key) == KeyLog(c, front, key);
      }
    }
  }

  lemma {:induction false} JobEffectsOfEmitted(c: Config, run: Run, job: Job, n: nat)
    requires RunOk(c, run) && n <= run.done
    ensures JobEffects(Emitted(c, run)[..n], job) == if run.job == job then JobScript(c, job)[..n] else []
  {
    if n > 0 {
      JobEffectsOfEmitted(c, run, job, n - 1);
      var part := Emitted(c, run)[..n];
      assert part[..n - 1] == Emitted(c, run)[..n - 1];
      assert part[n - 1] == Event(run.job, JobScript(c, run.job)[n - 1]);
      assert JobScript(c, run.job)[..n] == JobScript(c, run.job)[..n - 1] + [JobScript(c, run.job)[n - 1]];
    } else {
      assert Emitted(c, run)[..0] == [] && JobScript(c, run.job)[..0] == [];
    }
  }

  /** One more run adds to the effects of a job only if it is a run of that job. */
  lemma {:induction false} JobEffectsNext(c: Config, before: seq<Run>, last: Run, job: Job)
    requires RunOk(c, last)
    ensures JobEffects(Flatten(c, before + [last]), job)
         == JobEffects(Flatten(c, before), job) + if last.job == job then JobScript(c, job)[..last.done] else []
  {
    FlattenAppend(c, before, last);
    JobEffectsConcat(Flatten(c, before), Emitted(c, last), job);
    JobEffectsOfEmitted(c, last, job, last.done);
    assert Emitted(c, last)[..last.done] == Emitted(c, last);
  }

  ghost predicate AllOk(c: Config, runs: seq<Run>) {
    forall j :: 0 <= j < |runs| ==> RunOk(c, runs[j])
  }

  ghost predicate NoneIs(runs: seq<Run>, job: Job) {
    forall j :: 0 <= j < |runs| ==> runs[j].job != job
  }

  lemma {:induction false} NoEffectsOfOthers(c: Config, runs: seq<Run>, job: Job)
    requires AllOk(c, runs) && NoneIs(runs, job)
    ensures JobEffects(Flatten(c, runs), job) == []
  {
    if runs != [] {
      var before, last := runs[..|runs| - 1], runs[|runs| - 1];
      assert runs == before + [last];
      NoEffectsOfOthers(c, before, job);
      JobEffectsNext(c, before, last, job);
    }
  }

  /** The only run of a job, with runs of others before and after it. */
  lemma {:induction false} JobEffectsOfFlatten(c: Config, before: seq<Run>, run: Run, after: seq<Run>)
    requires AllOk(c, before) && RunOk(c, run) && AllOk(c, after)
    requires NoneIs(before, run.job) && NoneIs(after, run.job)
    ensures JobEffects(Flatten(c, before + [run] + after), run.job) == JobScript(c, run.job)[..run.done]
  {
    if after == [] {
      assert before + [run] + [] == before + [run];
      NoEffectsOfOthers(c, before, run.job);
      JobEffectsNext(c, before, run, run.job);
    } else {
      var front, last := after[..|after| - 1], after[|after| - 1];
      assert before + [run] + after == (before + [run] + front) + [last];
      JobEffectsOfFlatten(c, before, run, front);
      JobEffectsNext(c, before + [run] + front, last, run.job);
    }
  }

  lemma TwiceCounted(jobs: seq<Job>, j: nat, k: nat)
    requires j < k < |jobs| && jobs[j] == jobs[k]
    ensures multiset(jobs)[jobs[j]] >= 2
  {
    assert jobs == jobs[..k] + [jobs[k]] + jobs[k + 1..];
    assert jobs[..k][j] == jobs[j];
  }

  /** Whatever else happens, panics included, the log holds of a started job exactly the first
      effects of its script, as many as its run got to. */
  lemma JobEmitsItsScript(c: Config, s: State, key: Key, k: nat)
    requires Reachable(c, s) && k < |RunsOf(s, key)|
    ensures var run := RunsOf(s, key)[k];
            && RunOk(c, run) && KeyOf(c, run.job) == Some(key)
            && JobEffects(s.log, run.job) == JobScript(c, run.job)[..run.done]
            && (run.ending.Completed? ==> JobEffects(s.log, run.job) == JobScript(c, run.job))
  {
    InvReachable(c, s);
    var runs, job := RunsOf(s, key), RunsOf(s, key)[k].job;
    RunsAreOk(c, s, key);
    OnlyRunOf(c, s, key, k);
    EffectsOfRun(c, runs, k);
    assert KeyLog(c, s.log, key) == Flatten(c, runs);
    JobEffectsOfKeyLog(c, s.log, job, key);
    assert JobScript(c, job)[..|JobScript(c, job)|] == JobScript(c, job);
  }

  lemma RunsAreOk(c: Config, s: State, key: Key)
    requires RunsOk(c, s)
    ensures AllOk(c, RunsOf(s, key))
  {
    assert RunsAt(c, RunsOf(s, key), RunningOf(s.current, s.workers, key));
  }

  lemma {:induction false} EffectsOfRun(c: Config, runs: seq<Run>, k: nat)
    requires AllOk(c, runs) && k < |runs| && NoneIs(runs[..k], runs[k].job) && NoneIs(runs[k + 1..], runs[k].job)
    ensures ValidJob(c, runs[k].job)
    ensures JobEffects(Flatten(c, runs), runs[k].job) == JobScript(c, runs[k].job)[..runs[k].done]
  {
    assert runs == runs[..k] + [runs[k]] + runs[k + 1..];
    JobEffectsOfFlatten(c, runs[..k], runs[k], runs[k + 1..]);
  }

  /** A job is run once. */
  lemma OnlyRunOf(c: Config, s: State, key: Key, k: nat)
    requires Inv(c, s) && k < |RunsOf(s, key)|
    ensures var runs := RunsOf(s, key);
            && KeyOf(c, runs[k].job) == Some(key) && NoneIs(runs[..k], runs[k].job) && NoneIs(runs[k + 1..], runs[k].job)
  {
    var runs, job := RunsOf(s, key), RunsOf(s, key)[k].job;
    assert RunJobs(runs)[k] == job && job in Pipeline(s, key);
    PlacesOf(c, s, key, job.route, job.index);
    forall j | 0 <= j < |runs| && j != k ensures runs[j].job != job {
      if runs[j].job == job {
        if j < k { TwiceCounted(RunJobs(runs), j, k); } else { TwiceCounted(RunJobs(runs), k, j); }
      }
    }
  }

  lemma {:induction false} CountUpTo(effects: seq<Effect>, n: nat)
    requires n <= |effects| && effects != [] && CountSettled(effects) == 1 && effects[|effects| - 1].Settled?
    ensures CountSettled(effects[..n]) == if n == |effects| then 1 else 0
  {
    if n == |effects| {
      assert effects[..n] == effects;
    } else {
      assert effects == effects[..n] + effects[n..];
      CountsConcat(effects[..n], effects[n..]);
      SomeSettled(effects[n..]);
    }
  }

  /** A started job has been settled exactly when its run emitted its whole script, so a completion
      that fires without a panic means one settlement, and one that fires after a panic means none
      unless the panic came after the last effect. */
  lemma SettledUnlessPanicked(
      c: Config, s: State, key: Key, k: nat, b: Binding, outcomes: seq<Outcome>)
    requires Reachable(c, s) && k < |RunsOf(s, key)|
    requires Processes(c, RunsOf(s, key)[k].job.route, b, outcomes)
    ensures var run := RunsOf(s, key)[k];
            && ValidJob(c, run.job)
            && CountSettled(JobEffects(s.log, run.job)) == (if run.done == |JobScript(c, run.job)| then 1 else 0)
            && (run.ending.Completed? ==> CountSettled(JobEffects(s.log, run.job)) == 1)
  {
    JobEmitsItsScript(c, s, key, k);
    var run := RunsOf(s, key)[k];
    SettlementDiscipline(b, outcomes[run.job.index]);
    CountUpTo(JobScript(c, run.job), run.done);
  }
}
