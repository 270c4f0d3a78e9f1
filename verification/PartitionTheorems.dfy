/** What holds of the partition scheduler over whole runs. */
module PartitionTheorems {
  import opened Options
  import opened RouteJob
  import opened PartitionRegistry
  import opened PartitionModel
  import opened PartitionControl
  import opened PartitionJobs

  /** The loop only ends after its source did, and with no completion outstanding. */
  ghost predicate FinishOk(c: Config, s: State) {
    |s.routes| == |c.routes| && forall r :: 0 <= r < |s.routes| ==> RouteFinishOk(c, s.routes[r], r)
  }

  predicate RouteFinishOk(c: Config, route: Route, r: nat)
    requires r < |c.routes|
  {
    && (!route.open ==> route.taken == |c.routes[r].source|)
    && (route.phase.Finished? ==> !route.open && route.pending == {})
  }

  ghost predicate Inv(c: Config, s: State) {
    Control(c, s) && Jobs(c, s) && FinishOk(c, s)
  }

  lemma FinishRouteStep(c: Config, s: State, r: nat, act: RouteStep)
    requires FinishOk(c, s) && EnabledRoute(c, s, r, act)
    ensures FinishOk(c, ApplyRoute(c, s, r, act))
  {
  }

  lemma FinishStep(c: Config, s: State, step: Step)
    requires FinishOk(c, s) && Enabled(c, s, step)
    ensures FinishOk(c, Apply(c, s, step))
  {
    match step {
      case OfRoute(r, act) => FinishRouteStep(c, s, r, act);
      case OfWorker(g, task) => assert ApplyWorker(c, s, g, task).routes == s.routes;
      case HandleCommand =>
        var t := ApplyRegistry(s);
        forall r | 0 <= r < |t.routes| ensures RouteFinishOk(c, t.routes[r], r) {
          assert RouteFinishOk(c, s.routes[r], r);
        }
      case DropHandles =>
      case StopRegistry =>
    }
  }

  lemma InvStep(c: Config, s: State, step: Step)
    requires Inv(c, s) && Enabled(c, s, step)
    ensures Inv(c, Apply(c, s, step))
  {
    ControlStep(c, s, step);
    JobsStep(c, s, step);
    FinishStep(c, s, step);
  }

  lemma {:induction false} InvRun(c: Config, from: State, steps: seq<Step>, s: State)
    requires Inv(c, from) && Reaches(c, from, steps, s)
    ensures Inv(c, s)
    decreases |steps|
  {
    if steps != [] {
      InvStep(c, from, steps[0]);
      InvRun(c, Apply(c, from, steps[0]), steps[1..], s);
    }
  }

  /** `s` is reachable. */
  ghost predicate Reachable(c: Config, s: State) {
    exists steps :: Reaches(c, Init(c), steps, s)
  }

  lemma InvReachable(c: Config, s: State)
    requires Reachable(c, s)
    ensures Inv(c, s)
  {
    var steps :| Reaches(c, Init(c), steps, s);
    ControlInit(c);
    JobsInit(c);
    InvRun(c, Init(c), steps, s);
  }

  lemma {:induction false} ExtendRun(c: Config, from: State, steps: seq<Step>, s: State, step: Step)
    requires Reaches(c, from, steps, s) && |s.routes| == |c.routes| && Enabled(c, s, step)
    ensures Reaches(c, from, steps + [step], Apply(c, s, step))
    decreases |steps|
  {
    if steps == [] {
      assert ([step])[1..] == [];
      assert Reaches(c, Apply(c, s, step), [], Apply(c, s, step));
    } else {
      ExtendRun(c, Apply(c, from, steps[0]), steps[1..], s, step);
      assert (steps + [step])[1..] == steps[1..] + [step];
    }
  }

  lemma ReachableStep(c: Config, s: State, step: Step)
    requires Reachable(c, s) && |s.routes| == |c.routes| && Enabled(c, s, step)
    ensures Reachable(c, Apply(c, s, step))
  {
    var steps :| Reaches(c, Init(c), steps, s);
    ExtendRun(c, Init(c), steps, s, step);
  }

  /** Over all generations and all routes sharing the partitioner, a key has at most one worker
      that is not done and at most one job running. */
  lemma MutualExclusion(c: Config, s: State, g: nat, h: nat)
    requires Reachable(c, s) && g in s.workers && h in s.workers && s.workers[g].key == s.workers[h].key
    ensures !s.workers[g].mode.Done? && !s.workers[h].mode.Done? ==> g == h
    ensures s.workers[g].running.Some? && s.workers[h].running.Some? ==> g == h
    ensures |s.workers[g].queue| <= c.capacity
  {
    InvReachable(c, s);
    assert WorkerOk(c, s.workers[g]) && WorkerOk(c, s.workers[h]);
  }

  /** A held sender always points at a live worker of the job's key, so sending never fails. */
  lemma HeldSenderIsLive(c: Config, s: State, r: nat)
    requires Reachable(c, s) && r < |s.routes|
    ensures |s.routes| == |c.routes|
    ensures s.routes[r].phase.Sending? ==>
              var gen := s.routes[r].phase.gen;
              && gen in s.workers && !s.workers[gen].mode.Done?
              && KeyOf(c, Job(r, s.routes[r].phase.index)) == Some(s.workers[gen].key)
              && (s.registryUp ==> s.workers[gen].key in s.registry.entries
                                   && s.registry.entries[s.workers[gen].key].gen == gen)
    ensures !Enabled(c, s, OfRoute(r, SendFails))
  {
    InvReachable(c, s);
    assert SenderOk(c, s.workers, r, s.routes[r].phase);
  }

  /** No retirement request or notice is ever stale, and none is refused. */
  lemma NothingIsStale(c: Config, s: State)
    requires Reachable(c, s)
    ensures forall g :: g in s.workers ==> s.workers[g].mode != Answered(false)
    ensures s.registryUp && s.commands != [] ==>
              match s.commands[0]
              case Acquire(_, _) => true
              case BeginRetirement(key, g) => React(s.registry, s.commands[0], OpenRequests(s)).answer == Some(true)
              case Retired(key, g) => IsRetiring(s.registry, key, g)
  {
    InvReachable(c, s);
    assert forall g :: g in s.workers ==> WorkerOk(c, s.workers[g]);
    if s.registryUp && s.commands != [] {
      match s.commands[0] {
        case Acquire(_, _) =>
        case BeginRetirement(key, g) => BeginFindsActive(c, s, key, g);
        case Retired(key, g) => RetiredFindsDrained(c, s, key, g);
      }
    }
  }

  /** The registry spawns a worker only for a key without a live one. */
  lemma SpawnFindsNoWorker(c: Config, s: State)
    requires Inv(c, s) && s.registryUp && s.commands != []
    ensures React(s.registry, s.commands[0], OpenRequests(s)).spawned ==>
              forall h :: h in s.workers && s.workers[h].key == s.commands[0].key ==> s.workers[h].mode.Done?
  {
    match s.commands[0] {
      case Acquire(key, _) => if key !in s.registry.entries { NoEntryNoWorker(s, key); }
      case BeginRetirement(_, _) =>
      case Retired(key, h) => RetiredFindsDrained(c, s, key, h);
    }
  }

  /** A generation that is over: drained, and no sender of it is held. */
  ghost predicate Gone(s: State, h: nat)
    requires h in s.workers
  {
    && s.workers[h].mode.Done? && s.workers[h].queue == []
    && forall r :: 0 <= r < |s.routes| ==> !Holds(s.routes[r].phase, h)
  }

  lemma DoneIsDrained(c: Config, s: State, h: nat)
    requires Inv(c, s) && h in s.workers && s.workers[h].mode.Done?
    ensures s.workers[h].queue == [] && s.workers[h].running.None?
    ensures forall r :: 0 <= r < |s.routes| ==> !Holds(s.routes[r].phase, h)
  {
  }

  lemma RouteSpawnsNothing(c: Config, s: State, r: nat, act: RouteStep)
    requires |s.routes| == |c.routes| && EnabledRoute(c, s, r, act)
    ensures ApplyRoute(c, s, r, act).workers.Keys == s.workers.Keys
  {
  }

  lemma WorkerSpawnsNothing(c: Config, s: State, g: nat, task: WorkerStep)
    requires EnabledWorker(c, s, g, task)
    ensures ApplyWorker(c, s, g, task).workers.Keys == s.workers.Keys
  {
  }

  lemma OnlySpawnsAppear(c: Config, s: State, step: Step, g: nat)
    requires |s.routes| == |c.routes| && Enabled(c, s, step)
    ensures var t := Apply(c, s, step);
            g in t.workers && g !in s.workers ==>
              && step == HandleCommand && React(s.registry, s.commands[0], OpenRequests(s)).spawned
              && g == s.registry.nextGeneration && t.workers[g] == Worker(s.commands[0].key, Serving, [], None)
  {
    match step {
      case OfRoute(r, act) => RouteSpawnsNothing(c, s, r, act);
      case OfWorker(h, task) => WorkerSpawnsNothing(c, s, h, task);
      case HandleCommand => ReactionKeys(s, s.commands[0].key, React(s.registry, s.commands[0], OpenRequests(s)));
      case DropHandles =>
      case StopRegistry =>
    }
  }

  lemma ReactionKeys(s: State, key: Key, x: Reaction)
    requires x.spawned ==> x.answer.None?
    ensures var t := ApplyReaction(s, key, x);
            && t.workers.Keys == s.workers.Keys + (if x.spawned then {x.gen} else {})
            && (x.spawned ==> t.workers[x.gen] == Worker(key, Serving, [], None))
  {
  }

  /** A generation that appears is the next one, and when it does every earlier generation of its
      key is done with an empty queue and nobody holds a sender for it. */
  lemma HandOverIsSafe(c: Config, s: State, step: Step, g: nat)
    requires Reachable(c, s) && |s.routes| == |c.routes| && Enabled(c, s, step)
    ensures var t := Apply(c, s, step);
            g in t.workers && g !in s.workers ==>
              && g == s.registry.nextGeneration && t.workers[g] == Worker(t.workers[g].key, Serving, [], None)
              && forall h :: h in s.workers && s.workers[h].key == t.workers[g].key ==> Gone(s, h)
  {
    InvReachable(c, s);
    OnlySpawnsAppear(c, s, step, g);
    if step == HandleCommand {
      SpawnFindsNoWorker(c, s);
    }
    forall h | h in s.workers && s.workers[h].mode.Done?
      ensures Gone(s, h)
    {
      DoneIsDrained(c, s, h);
    }
  }

  lemma {:induction false} ByRouteCounts(jobs: seq<Job>, r: nat, i: nat)
    ensures multiset(ByRoute(jobs, r))[i] == multiset(jobs)[Job(r, i)]
  {
    if jobs != [] {
      var before, last := jobs[..|jobs| - 1], jobs[|jobs| - 1];
      assert jobs == before + [last];
      ByRouteCounts(before, r, i);
    }
  }

  lemma CountNext(before: seq<nat>, below: seq<nat>, n: nat, keyed: bool, i: nat, counts: bool)
    requires below == before + if keyed then [n] else []
    requires multiset(before)[i] == (if i < n && counts then 1 else 0) && (i == n ==> counts == keyed)
    ensures multiset(below)[i] == if i <= n && counts then 1 else 0
  {
    assert before + [] == before;
  }

  predicate HasKey(c: Config, r: nat, i: nat, key: Key) {
    KeyOf(c, Job(r, i)) == Some(key)
  }

  lemma KeyedBelowNext(c: Config, r: nat, key: Key, n: nat)
    ensures KeyedBelow(c, r, key, n + 1) == KeyedBelow(c, r, key, n) + if HasKey(c, r, n, key) then [n] else []
  {
  }

  lemma {:induction false} KeyedBelowCounts(c: Config, r: nat, key: Key, n: nat, i: nat)
    ensures multiset(KeyedBelow(c, r, key, n))[i] == if i < n && HasKey(c, r, i, key) then 1 else 0
  {
    if n > 0 {
      var m := n - 1;
      KeyedBelowCounts(c, r, key, m, i);
      KeyedBelowNext(c, r, key, m);
      CountNext(KeyedBelow(c, r, key, m), KeyedBelow(c, r, key, n), m, HasKey(c, r, m, key), i, HasKey(c, r, i, key));
    }
  }

  /** Every message a route has read and found a key for is in exactly one place: with the route,
      in the queue of the key's worker, or among the runs of the key. Nothing else is anywhere. */
  lemma JobConservation(c: Config, s: State, key: Key, r: nat, i: nat)
    requires Reachable(c, s) && r < |s.routes|
    ensures var job := Job(r, i);
            multiset(RunJobs(RunsOf(s, key)))[job]
            + multiset(QueueOf(s.current, s.workers, key))[job]
            + (if CarriedIndex(s.routes[r].phase) == Some(i) && KeyOf(c, job) == Some(key) then 1 else 0)
            == if i < s.routes[r].taken && KeyOf(c, job) == Some(key) then 1 else 0
    ensures forall g :: g in s.workers && s.workers[g].queue != [] ==>
              s.workers[g].queue == QueueOf(s.current, s.workers, s.workers[g].key)
  {
    InvReachable(c, s);
    PlacesOf(c, s, key, r, i);
    assert forall g :: g in s.workers ==> WorkerOk(c, s.workers[g]);
  }

  lemma PlacesOf(c: Config, s: State, key: Key, r: nat, i: nat)
    requires OrderOk(c, s) && r < |s.routes|
    ensures var job := Job(r, i);
            multiset(RunJobs(RunsOf(s, key)))[job]
            + multiset(QueueOf(s.current, s.workers, key))[job]
            + (if CarriedIndex(s.routes[r].phase) == Some(i) && KeyOf(c, job) == Some(key) then 1 else 0)
            == if i < s.routes[r].taken && KeyOf(c, job) == Some(key) then 1 else 0
  {
    assert OrderAt(c, s, key, r);
    ByRouteCounts(Pipeline(s, key), r, i);
    KeyedBelowCounts(c, r, key, s.routes[r].taken, i);
    assert multiset(Pipeline(s, key))
        == multiset(RunJobs(RunsOf(s, key))) + multiset(QueueOf(s.current, s.workers, key));
    var placed, carried := ByRoute(Pipeline(s, key), r), Carried(c, r, s.routes[r].phase, key);
    assert multiset(placed + carried) == multiset(placed) + multiset(carried);
  }

  lemma {:induction false} EndedAtMost(runs: seq<Run>, job: Job)
    ensures Ended(runs, job) <= multiset(RunJobs(runs))[job]
    ensures (exists k :: 0 <= k < |runs| && runs[k].job == job && runs[k].ending.Unfinished?) ==>
              Ended(runs, job) < multiset(RunJobs(runs))[job]
    ensures (exists k :: 0 <= k < |runs| && runs[k].job == job && !runs[k].ending.Unfinished?) ==>
              Ended(runs, job) > 0
  {
    if runs != [] {
      var before := runs[..|runs| - 1];
      EndedAtMost(before, job);
      assert RunJobs(runs) == RunJobs(before) + [runs[|runs| - 1].job];
      assert forall k :: 0 <= k < |before| ==> runs[k] == before[k];
    }
  }

  /** A completion fires at most once, and has fired exactly when the job's run is over, whether
      it completed or panicked. */
  lemma CompletionFiresOnce(c: Config, s: State, job: Job)
    requires Reachable(c, s)
    ensures s.completions[job] <= 1
    ensures KeyOf(c, job).None? ==> s.completions[job] == 0
    ensures KeyOf(c, job).Some? ==>
              var runs := RunsOf(s, KeyOf(c, job).value);
              s.completions[job] == 1 <==>
              exists k :: 0 <= k < |runs| && runs[k].job == job && !runs[k].ending.Unfinished?
  {
    InvReachable(c, s);
    if KeyOf(c, job).Some? {
      var key := KeyOf(c, job).value;
      PlacesOf(c, s, key, job.route, job.index);
      EndedAtMost(RunsOf(s, key), job);
      EndedNone(RunsOf(s, key), job);
    }
  }

  lemma {:induction false} EndedNone(runs: seq<Run>, job: Job)
    ensures Ended(runs, job) > 0 ==>
              exists k :: 0 <= k < |runs| && runs[k].job == job && !runs[k].ending.Unfinished?
  {
    if runs != [] {
      var before, last := runs[..|runs| - 1], |runs| - 1;
      EndedNone(before, job);
      if Ended(before, job) > 0 {
        var k :| 0 <= k < |before| && before[k].job == job && !before[k].ending.Unfinished?;
        assert runs[k] == before[k];
      } else if Ended(runs, job) > 0 {
        assert runs[last].job == job && !runs[last].ending.Unfinished?;
      }
    }
  }
}
