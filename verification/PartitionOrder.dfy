/** When a whole route, key-less messages included, keeps the order of the sequential loop: the
    messages whose key cannot be resolved come first, and the others have one key. */
module PartitionOrder {
  import opened Options
  import opened RouteJob
  import opened PartitionRegistry
  import opened PartitionModel
  import opened PartitionControl
  import opened PartitionJobs
  import opened PartitionTheorems
  import opened PartitionRefinement

  /** No message after one with a key has another key, or none. */
  ghost predicate OneKeyLast(c: Config, r: nat)
    requires r < |c.routes|
  {
    var source := c.routes[r].source;
    forall i, j :: 0 <= i < j < |source| && source[i].key.Some? ==> source[j].key == source[i].key
  }

  /** The scripts of the first `n` messages of a route, one after the other. */
  function WholeScripts(c: Config, r: nat, n: nat): seq<Event> {
    if n == 0 then [] else WholeScripts(c, r, n - 1) + WholeRun(c, Job(r, n - 1))
  }

  function EffectsIn(c: Config, r: nat): (scripts: seq<seq<Effect>>)
    requires r < |c.routes|
    ensures |scripts| == |c.routes[r].source|
    ensures forall i :: 0 <= i < |scripts| ==> scripts[i] == c.routes[r].source[i].effects
  {
    seq(|c.routes[r].source|, i requires 0 <= i < |c.routes[r].source| => c.routes[r].source[i].effects)
  }

  /** What a loop emits that handles every message of the route inline, one after the other. */
  function SequentialLog(c: Config, r: nat): seq<Event>
    requires r < |c.routes|
  {
    AsEvents(r, OneByOne(EffectsIn(c, r), |c.routes[r].source|))
  }

  lemma TagIsWholeRun(c: Config, r: nat, i: nat)
    requires r < |c.routes| && i < |c.routes[r].source|
    ensures AsEvents(r, Tag(i, EffectsIn(c, r)[i])) == WholeRun(c, Job(r, i))
  {
  }

  lemma {:induction false} SequentialIsWholeScripts(c: Config, r: nat, n: nat)
    requires r < |c.routes| && n <= |c.routes[r].source|
    ensures AsEvents(r, OneByOne(EffectsIn(c, r), n)) == WholeScripts(c, r, n)
  {
    if n > 0 {
      SequentialIsWholeScripts(c, r, n - 1);
      OneByOneNext(EffectsIn(c, r), n - 1);
      AsEventsConcat(r, OneByOne(EffectsIn(c, r), n - 1), Tag(n - 1, EffectsIn(c, r)[n - 1]));
      TagIsWholeRun(c, r, n - 1);
    }
  }

  // ---------- the events of the messages without a key ----------

  predicate OfInline(c: Config, e: Event, r: nat) {
    e.job.route == r && KeyOf(c, e.job).None?
  }

  function InlineLog(c: Config, log: seq<Event>, r: nat): seq<Event> {
    if log == [] then []
    else
      var last := log[|log| - 1];
      InlineLog(c, log[..|log| - 1], r) + if OfInline(c, last, r) then [last] else []
  }

  /** The scripts of the messages without a key among the first `n`. */
  function NoneScripts(c: Config, r: nat, n: nat): seq<Event> {
    if n == 0 then []
    else NoneScripts(c, r, n - 1) + if KeyOf(c, Job(r, n - 1)).None? then WholeRun(c, Job(r, n - 1)) else []
  }

  lemma {:induction false} InlineLogAppend(c: Config, log: seq<Event>, e: Event, r: nat)
    ensures InlineLog(c, log + [e], r) == InlineLog(c, log, r) + if OfInline(c, e, r) then [e] else []
  {
    assert (log + [e])[..|log + [e]| - 1] == log;
  }

  /** Messages without a key are handled in source order, one whole script after the other; only the
      last one taken may be under way, or have been cut short when the route was aborted. */
  predicate InlineOk(c: Config, log: seq<Event>, r: nat, route: Route) {
    var events := InlineLog(c, log, r);
    match route.phase
    case Inline(i, done) =>
      && route.taken == i + 1 && KeyOf(c, Job(r, i)).None? && done <= |WholeRun(c, Job(r, i))|
      && events == NoneScripts(c, r, i) + WholeRun(c, Job(r, i))[..done]
    case Aborted(_) =>
      || events == NoneScripts(c, r, route.taken)
      || (route.taken > 0 && KeyOf(c, Job(r, route.taken - 1)).None?
          && NoneScripts(c, r, route.taken - 1) <= events <= NoneScripts(c, r, route.taken))
    case _ => events == NoneScripts(c, r, route.taken)
  }

  ghost predicate AllInlineOk(c: Config, s: State) {
    forall r :: 0 <= r < |s.routes| ==> InlineOk(c, s.log, r, s.routes[r])
  }

  /** Routes that do not move while somebody else emits an event of no concern to them. */
  lemma {:induction false} InlineOkKept(c: Config, log: seq<Event>, after: seq<Event>, r: nat, route: Route)
    requires InlineOk(c, log, r, route) && InlineLog(c, after, r) == InlineLog(c, log, r)
    ensures InlineOk(c, after, r, route)
  {
  }

  lemma InlineTakes(c: Config, log: seq<Event>, r: nat, route: Route, next: Phase)
    requires InlineOk(c, log, r, route) && route.phase.Polling?
    requires next == if KeyOf(c, Job(r, route.taken)).Some? then Submitting(route.taken) else Inline(route.taken, 0)
    ensures InlineOk(c, log, r, route.(taken := route.taken + 1, phase := next))
  {
    var i := route.taken;
    assert NoneScripts(c, r, i) + [] == NoneScripts(c, r, i);
    assert WholeRun(c, Job(r, i))[..0] == [];
  }

  lemma InlineEmits(c: Config, log: seq<Event>, r: nat, route: Route, e: Event)
    requires InlineOk(c, log, r, route) && route.phase.Inline? && ValidJob(c, Job(r, route.phase.index))
    requires var i, done := route.phase.index, route.phase.done;
             done < |JobScript(c, Job(r, i))| && e == Event(Job(r, i), JobScript(c, Job(r, i))[done])
    ensures InlineOk(c, log + [e], r, route.(phase := Inline(route.phase.index, route.phase.done + 1)))
  {
    var i, done := route.phase.index, route.phase.done;
    var whole := WholeRun(c, Job(r, i));
    InlineLogAppend(c, log, e, r);
    assert whole[done] == e && whole[..done + 1] == whole[..done] + [e];
    assert NoneScripts(c, r, i) + whole[..done] + [e] == NoneScripts(c, r, i) + whole[..done + 1];
  }

  lemma InlineEnds(c: Config, log: seq<Event>, r: nat, route: Route)
    requires InlineOk(c, log, r, route) && route.phase.Inline? && ValidJob(c, Job(r, route.phase.index))
    requires route.phase.done == |JobScript(c, Job(r, route.phase.index))|
    ensures InlineOk(c, log, r, route.(phase := Polling))
  {
    var whole := WholeRun(c, Job(r, route.phase.index));
    assert whole[..route.phase.done] == whole;
  }

  lemma InlineAborts(c: Config, log: seq<Event>, r: nat, route: Route, lost: Option<nat>)
    requires InlineOk(c, log, r, route) && !route.phase.Aborted?
    ensures InlineOk(c, log, r, route.(phase := Aborted(lost)))
  {
    if route.phase.Inline? {
      var whole, i := WholeRun(c, Job(r, route.phase.index)), route.phase.index;
      PrefixUnder(NoneScripts(c, r, i), whole[..route.phase.done], whole);
    }
  }

  lemma InlineMovesOn(c: Config, log: seq<Event>, r: nat, route: Route, after: Route)
    requires InlineOk(c, log, r, route) && after.taken == route.taken
    requires !route.phase.Inline? && !route.phase.Aborted? && !after.phase.Inline? && !after.phase.Aborted?
    ensures InlineOk(c, log, r, after)
  {
  }

  /** The steps of a route other than reading, inline handling and being aborted. */
  lemma RouteMovesOn(c: Config, s: State, r: nat, act: RouteStep)
    requires RoutesOk(c, s) && EnabledRoute(c, s, r, act)
    requires !act.Take? && !act.EmitInline? && !act.EndInline? && !act.AbortRoute?
    ensures var t := ApplyRoute(c, s, r, act);
            && |t.routes| == |s.routes| && t.routes[r].taken == s.routes[r].taken && t.log == s.log
            && !s.routes[r].phase.Inline? && !s.routes[r].phase.Aborted?
            && !t.routes[r].phase.Inline? && !t.routes[r].phase.Aborted?
  {
  }

  lemma OwnHandlingStep(c: Config, s: State, r: nat, act: RouteStep)
    requires RoutesOk(c, s) && AllInlineOk(c, s) && EnabledRoute(c, s, r, act) && (act.EmitInline? || act.EndInline?)
    ensures var t := ApplyRoute(c, s, r, act); r < |t.routes| && InlineOk(c, t.log, r, t.routes[r])
  {
    var t, route := ApplyRoute(c, s, r, act), s.routes[r];
    assert InlineOk(c, s.log, r, route);
    if act.EmitInline? {
      InlineEmits(c, s.log, r, route, t.log[|s.log|]);
    } else {
      InlineEnds(c, s.log, r, route);
    }
  }

  lemma OwnInlineStep(c: Config, s: State, r: nat, act: RouteStep)
    requires RoutesOk(c, s) && AllInlineOk(c, s) && EnabledRoute(c, s, r, act)
    ensures var t := ApplyRoute(c, s, r, act); r < |t.routes| && InlineOk(c, t.log, r, t.routes[r])
  {
    var t, route := ApplyRoute(c, s, r, act), s.routes[r];
    assert InlineOk(c, s.log, r, route);
    if act.EmitInline? || act.EndInline? {
      OwnHandlingStep(c, s, r, act);
    } else if act.Take? {
      InlineTakes(c, s.log, r, route, t.routes[r].phase);
    } else if act.AbortRoute? {
      InlineAborts(c, s.log, r, route, t.routes[r].phase.lost);
    } else {
      RouteMovesOn(c, s, r, act);
      InlineMovesOn(c, s.log, r, route, t.routes[r]);
    }
  }

  /** A step adds at most one event to the log. */
  lemma RouteLogs(c: Config, s: State, r: nat, act: RouteStep)
    requires |s.routes| == |c.routes| && EnabledRoute(c, s, r, act)
    ensures var t := ApplyRoute(c, s, r, act);
            && |t.routes| == |s.routes| && (forall q :: 0 <= q < |s.routes| && q != r ==> t.routes[q] == s.routes[q])
            && (t.log == s.log || (act.EmitInline? && t.log == s.log + [t.log[|s.log|]] && t.log[|s.log|].job.route == r))
  {
  }

  lemma InlineRouteStep(c: Config, s: State, r: nat, act: RouteStep)
    requires RoutesOk(c, s) && AllInlineOk(c, s) && EnabledRoute(c, s, r, act)
    ensures AllInlineOk(c, ApplyRoute(c, s, r, act))
  {
    var t := ApplyRoute(c, s, r, act);
    RouteLogs(c, s, r, act);
    OwnInlineStep(c, s, r, act);
    forall q | 0 <= q < |t.routes| && q != r ensures InlineOk(c, t.log, q, t.routes[q]) {
      assert InlineOk(c, s.log, q, s.routes[q]);
      if t.log != s.log {
        InlineLogAppend(c, s.log, t.log[|s.log|], q);
      }
      InlineOkKept(c, s.log, t.log, q, s.routes[q]);
    }
  }

  /** What a worker emits belongs to a message with a key. */
  lemma WorkerLogs(c: Config, s: State, g: nat, task: WorkerStep)
    requires WorkersOk(c, s) && RunsOk(c, s) && PipelineOk(c, s) && EnabledWorker(c, s, g, task)
    ensures var t := ApplyWorker(c, s, g, task);
            && t.routes == s.routes
            && (t.log == s.log || (t.log == s.log + [t.log[|s.log|]] && KeyOf(c, t.log[|s.log|].job).Some?))
  {
    assert WorkerOk(c, s.workers[g]);
    if task.Emit? {
      UnderWay(c, s, g);
    }
  }

  lemma InlineWorkerStep(c: Config, s: State, g: nat, task: WorkerStep)
    requires Inv(c, s) && AllInlineOk(c, s) && EnabledWorker(c, s, g, task)
    ensures AllInlineOk(c, ApplyWorker(c, s, g, task))
  {
    var t := ApplyWorker(c, s, g, task);
    WorkerLogs(c, s, g, task);
    forall q | 0 <= q < |t.routes| ensures InlineOk(c, t.log, q, t.routes[q]) {
      assert InlineOk(c, s.log, q, s.routes[q]);
      if t.log != s.log {
        InlineLogAppend(c, s.log, t.log[|s.log|], q);
      }
      InlineOkKept(c, s.log, t.log, q, s.routes[q]);
    }
  }

  lemma InlineRegistryStep(c: Config, s: State)
    requires AllInlineOk(c, s) && s.commands != []
    ensures AllInlineOk(c, ApplyRegistry(s))
  {
    var t := ApplyRegistry(s);
    forall q | 0 <= q < |t.routes| ensures InlineOk(c, t.log, q, t.routes[q]) {
      assert InlineOk(c, s.log, q, s.routes[q]);
      if t.routes[q] != s.routes[q] {
        InlineMovesOn(c, s.log, q, s.routes[q], t.routes[q]);
      }
    }
  }

  lemma InlineStep(c: Config, s: State, step: Step)
    requires Inv(c, s) && AllInlineOk(c, s) && Enabled(c, s, step)
    ensures AllInlineOk(c, Apply(c, s, step))
  {
    match step {
      case OfRoute(r, act) => InlineRouteStep(c, s, r, act);
      case OfWorker(g, task) => InlineWorkerStep(c, s, g, task);
      case HandleCommand => InlineRegistryStep(c, s);
      case DropHandles =>
      case StopRegistry =>
    }
  }

  // ---------- events without a key before events with one ----------

  /** In the log of route `r` no event of a message with a key precedes one of a message without. */
  ghost predicate InlineFirst(c: Config, log: seq<Event>, r: nat) {
    forall a, b :: 0 <= a < b < |log| && log[a].job.route == r && log[b].job.route == r && KeyOf(c, log[a].job).Some? ==>
      KeyOf(c, log[b].job).Some?
  }

  lemma {:induction false} InKeyLog(c: Config, log: seq<Event>, a: nat, key: Key)
    requires a < |log| && KeyOf(c, log[a].job) == Some(key)
    ensures log[a] in KeyLog(c, log, key)
  {
    if a < |log| - 1 {
      InKeyLog(c, log[..|log| - 1], a, key);
    }
  }

  lemma {:induction false} FromARun(c: Config, runs: seq<Run>, e: Event)
    requires e in Flatten(c, runs)
    ensures e.job in RunJobs(runs)
  {
    var front, last := runs[..|runs| - 1], runs[|runs| - 1];
    assert runs == front + [last];
    if e in Flatten(c, front) {
      FromARun(c, front, e);
      assert RunJobs(runs) == RunJobs(front) + [last.job];
    } else {
      EmittedOfOneJob(c, last);
      assert RunJobs(runs)[|runs| - 1] == last.job;
    }
  }

  /** An event of a message with a key is of one that its route has read. */
  lemma KeyedWasTaken(c: Config, s: State, a: nat)
    requires Inv(c, s) && a < |s.log| && KeyOf(c, s.log[a].job).Some?
    ensures s.log[a].job.route < |s.routes| && s.log[a].job.index < s.routes[s.log[a].job.route].taken
  {
    var job, key := s.log[a].job, KeyOf(c, s.log[a].job).value;
    InKeyLog(c, s.log, a, key);
    assert KeyLog(c, s.log, key) == Flatten(c, RunsOf(s, key));
    FromARun(c, RunsOf(s, key), s.log[a]);
    assert job in multiset(RunJobs(RunsOf(s, key)));
    PlacesOf(c, s, key, job.route, job.index);
  }

  lemma InlineFirstAppend(c: Config, log: seq<Event>, e: Event, r: nat)
    requires InlineFirst(c, log, r)
    requires OfInline(c, e, r) ==> forall a :: 0 <= a < |log| && log[a].job.route == r ==> KeyOf(c, log[a].job).None?
    ensures InlineFirst(c, log + [e], r)
  {
  }

  lemma NoKeyBefore(c: Config, r: nat, i: nat, j: nat)
    requires r < |c.routes| && OneKeyLast(c, r) && j <= i && ValidJob(c, Job(r, i)) && KeyOf(c, Job(r, i)).None?
    ensures KeyOf(c, Job(r, j)).None?
  {
  }

  lemma InlineIsLast(c: Config, s: State, r: nat)
    requires AllInlineOk(c, s) && r < |s.routes| && s.routes[r].phase.Inline?
    ensures s.routes[r].taken == s.routes[r].phase.index + 1 && KeyOf(c, Job(r, s.routes[r].phase.index)).None?
  {
    assert InlineOk(c, s.log, r, s.routes[r]);
  }

  /** With the keys in this order, nothing with a key has been emitted while a message without one
      is handled. */
  lemma NothingKeyedYet(c: Config, s: State, r: nat, a: nat)
    requires Inv(c, s) && AllInlineOk(c, s) && r < |c.routes| && OneKeyLast(c, r) && r < |s.routes|
    requires s.routes[r].phase.Inline? && ValidJob(c, Job(r, s.routes[r].phase.index))
    requires a < |s.log| && s.log[a].job.route == r
    ensures KeyOf(c, s.log[a].job).None?
  {
    InlineIsLast(c, s, r);
    var job := s.log[a].job;
    if KeyOf(c, job).Some? {
      KeyedWasTaken(c, s, a);
    }
    if job.index <= s.routes[r].phase.index {
      NoKeyBefore(c, r, s.routes[r].phase.index, job.index);
      assert job == Job(r, job.index);
    }
  }

  lemma InlineFirstRouteStep(c: Config, s: State, q: nat, act: RouteStep, r: nat)
    requires Inv(c, s) && AllInlineOk(c, s) && r < |c.routes| && OneKeyLast(c, r)
    requires InlineFirst(c, s.log, r) && EnabledRoute(c, s, q, act)
    ensures InlineFirst(c, ApplyRoute(c, s, q, act).log, r)
  {
    var t := ApplyRoute(c, s, q, act);
    RouteLogs(c, s, q, act);
    if t.log != s.log {
      var e := t.log[|s.log|];
      if OfInline(c, e, r) {
        forall a | 0 <= a < |s.log| && s.log[a].job.route == r ensures KeyOf(c, s.log[a].job).None? {
          NothingKeyedYet(c, s, r, a);
        }
      }
      InlineFirstAppend(c, s.log, e, r);
    }
  }

  lemma InlineFirstWorkerStep(c: Config, s: State, g: nat, task: WorkerStep, r: nat)
    requires Inv(c, s) && InlineFirst(c, s.log, r) && EnabledWorker(c, s, g, task)
    ensures InlineFirst(c, ApplyWorker(c, s, g, task).log, r)
  {
    var t := ApplyWorker(c, s, g, task);
    WorkerLogs(c, s, g, task);
    if t.log != s.log {
      InlineFirstAppend(c, s.log, t.log[|s.log|], r);
    }
  }

  lemma InlineFirstStep(c: Config, s: State, step: Step, r: nat)
    requires Inv(c, s) && AllInlineOk(c, s) && r < |c.routes| && OneKeyLast(c, r)
    requires InlineFirst(c, s.log, r) && Enabled(c, s, step)
    ensures InlineFirst(c, Apply(c, s, step).log, r)
  {
    match step {
      case OfRoute(q, act) => InlineFirstRouteStep(c, s, q, act, r);
      case OfWorker(g, task) => InlineFirstWorkerStep(c, s, g, task, r);
      case HandleCommand => assert ApplyRegistry(s).log == s.log;
      case DropHandles =>
      case StopRegistry =>
    }
  }

  lemma {:induction false} InlineRun(c: Config, from: State, steps: seq<Step>, s: State)
    requires Inv(c, from) && AllInlineOk(c, from) && Reaches(c, from, steps, s)
    ensures AllInlineOk(c, s)
    ensures forall r :: 0 <= r < |c.routes| && OneKeyLast(c, r) && InlineFirst(c, from.log, r) ==> InlineFirst(c, s.log, r)
    decreases |steps|
  {
    if steps != [] {
      var next := Apply(c, from, steps[0]);
      InvStep(c, from, steps[0]);
      InlineStep(c, from, steps[0]);
      forall r | 0 <= r < |c.routes| && OneKeyLast(c, r) && InlineFirst(c, from.log, r)
        ensures InlineFirst(c, next.log, r)
      {
        InlineFirstStep(c, from, steps[0], r);
      }
      InlineRun(c, next, steps[1..], s);
    }
  }

  /** In every run the messages without a key of a route are handled in source order. */
  lemma InlineReachable(c: Config, s: State)
    requires Reachable(c, s)
    ensures Inv(c, s) && AllInlineOk(c, s)
    ensures forall r :: 0 <= r < |c.routes| && OneKeyLast(c, r) ==> InlineFirst(c, s.log, r)
  {
    var steps :| Reaches(c, Init(c), steps, s);
    InvReachable(c, s);
    ControlInit(c);
    JobsInit(c);
    InlineRun(c, Init(c), steps, s);
  }

  // ---------- the order is kept ----------

  /** All messages of the route that have a key have this one. */
  ghost predicate OnlyKey(c: Config, r: nat, key: Key)
    requires r < |c.routes|
  {
    forall i :: 0 <= i < |c.routes[r].source| && c.routes[r].source[i].key.Some? ==> c.routes[r].source[i].key.value == key
  }

  lemma TheKey(c: Config, r: nat) returns (key: Key)
    requires r < |c.routes| && OneKeyLast(c, r)
    ensures OnlyKey(c, r, key)
  {
    var source := c.routes[r].source;
    if i :| 0 <= i < |source| && source[i].key.Some? {
      key := source[i].key.value;
      forall j | 0 <= j < |source| && source[j].key.Some? ensures source[j].key.value == key {
        assert i < j || j < i || i == j;
      }
    } else {
      key := "";
    }
  }

  lemma {:induction false} RouteLogLast(log: seq<Event>, e: Event, r: nat)
    ensures RouteLog(log + [e], r) == RouteLog(log, r) + if e.job.route == r then [e] else []
  {
    assert (log + [e])[..|log + [e]| - 1] == log;
  }

  /** The events of route `r` and key `key`. */
  function KeyedOf(c: Config, log: seq<Event>, r: nat, key: Key): seq<Event> {
    RouteLog(KeyLog(c, log, key), r)
  }

  lemma KeyedOfLast(c: Config, log: seq<Event>, e: Event, r: nat, key: Key)
    ensures KeyedOf(c, log + [e], r, key)
         == KeyedOf(c, log, r, key) + if e.job.route == r && KeyOf(c, e.job) == Some(key) then [e] else []
  {
    KeyLogAppend(c, log, e, key);
    RouteLogLast(KeyLog(c, log, key), e, r);
    assert KeyLog(c, log, key) + [] == KeyLog(c, log, key);
  }

  lemma {:induction false} NothingKeyed(c: Config, log: seq<Event>, r: nat, key: Key)
    requires forall a :: 0 <= a < |log| && log[a].job.route == r ==> KeyOf(c, log[a].job).None?
    ensures KeyedOf(c, log, r, key) == []
  {
    if log != [] {
      var front, last := log[..|log| - 1], log[|log| - 1];
      assert log == front + [last];
      NothingKeyed(c, front, r, key);
      KeyedOfLast(c, front, last, r, key);
    }
  }

  /** The events of the route: first those of the messages without a key, then those with. */
  lemma {:induction false} SplitLog(c: Config, log: seq<Event>, r: nat, key: Key)
    requires r < |c.routes| && OnlyKey(c, r, key) && InlineFirst(c, log, r)
    ensures RouteLog(log, r) == InlineLog(c, log, r) + KeyedOf(c, log, r, key)
  {
    if log != [] {
      var front, last := log[..|log| - 1], log[|log| - 1];
      assert log == front + [last];
      SplitLog(c, front, r, key);
      RouteLogLast(front, last, r);
      InlineLogAppend(c, front, last, r);
      KeyedOfLast(c, front, last, r, key);
      if OfInline(c, last, r) {
        forall a | 0 <= a < |front| && front[a].job.route == r ensures KeyOf(c, front[a].job).None? {
          assert log[a] == front[a] && log[|front|] == last;
        }
        NothingKeyed(c, front, r, key);
      } else if last.job.route == r {
        assert KeyOf(c, last.job) == Some(key);
      }
      SplitOne(InlineLog(c, front, r), KeyedOf(c, front, r, key), last);
    }
  }

  lemma SplitOne(a: seq<Event>, b: seq<Event>, e: Event)
    ensures a + b + [e] == a + (b + [e]) && (b == [] ==> a + b + [e] == (a + [e]) + b)
    ensures a + b + [] == a + b && a + [] == a && b + [] == b
  {
  }

  lemma {:induction false} NoneScriptsGrow(c: Config, r: nat, n: nat, m: nat)
    requires n <= m
    ensures NoneScripts(c, r, n) <= NoneScripts(c, r, m)
    ensures (forall i :: n <= i < m ==> KeyOf(c, Job(r, i)).Some?) ==> NoneScripts(c, r, n) == NoneScripts(c, r, m)
  {
    if n < m {
      NoneScriptsGrow(c, r, n, m - 1);
    }
  }

  lemma {:induction false} NoKeysBelow(c: Config, r: nat, key: Key, n: nat)
    requires forall i :: 0 <= i < n ==> KeyOf(c, Job(r, i)).None?
    ensures KeyedBelow(c, r, key, n) == []
  {
    if n > 0 {
      NoKeysBelow(c, r, key, n - 1);
    }
  }

  /** With the keys in this order the whole scripts are those without a key, then those with. */
  lemma {:induction false} SplitScripts(c: Config, r: nat, key: Key, n: nat)
    requires r < |c.routes| && OneKeyLast(c, r) && OnlyKey(c, r, key) && n <= |c.routes[r].source|
    ensures WholeScripts(c, r, n) == NoneScripts(c, r, n) + Scripts(c, r, KeyedBelow(c, r, key, n))
  {
    if n > 0 {
      var i := n - 1;
      SplitScripts(c, r, key, i);
      KeyedBelowNext(c, r, key, i);
      ScriptsAppend(c, r, KeyedBelow(c, r, key, i), i);
      if KeyOf(c, Job(r, i)).None? {
        forall j | 0 <= j < i ensures KeyOf(c, Job(r, j)).None? {
          NoKeyBefore(c, r, i, j);
        }
        NoKeysBelow(c, r, key, i);
      }
      SplitChunk(NoneScripts(c, r, i), Scripts(c, r, KeyedBelow(c, r, key, i)), WholeRun(c, Job(r, i)));
      assert KeyedBelow(c, r, key, i) + [] == KeyedBelow(c, r, key, i);
    }
  }

  lemma SplitChunk(a: seq<Event>, b: seq<Event>, x: seq<Event>)
    ensures a + b + x == a + (b + x) && (b == [] ==> a + b + x == (a + x) + b)
    ensures a + [] == a
  {
  }

  /** The events of a key are a prefix of the scripts of its messages. */
  lemma {:induction false} KeyedPrefix(c: Config, s: State, key: Key, r: nat)
    requires Inv(c, s) && PanicFree(s) && r < |s.routes|
    ensures KeyedOf(c, s.log, r, key) <= Scripts(c, r, KeyedBelow(c, r, key, |c.routes[r].source|))
  {
    var runs := RunsOf(s, key);
    assert KeyLog(c, s.log, key) == Flatten(c, runs);
    PanicFreeRuns(c, s, key);
    FlattenOfRoute(c, runs, r);
    StartedFirst(c, s, key, r);
    ScriptsGrow(c, r, ByRoute(RunJobs(runs), r), KeyedBelow(c, r, key, |c.routes[r].source|));
  }

  lemma {:induction false} InlinePrefix(c: Config, log: seq<Event>, r: nat, route: Route)
    requires InlineOk(c, log, r, route)
    ensures InlineLog(c, log, r) <= NoneScripts(c, r, route.taken)
  {
    if route.phase.Inline? {
      var i, whole := route.phase.index, WholeRun(c, Job(r, route.phase.index));
      PrefixUnder(NoneScripts(c, r, i), whole[..route.phase.done], whole);
    }
  }

  lemma KeyAfter(c: Config, r: nat, j: nat, i: nat)
    requires r < |c.routes| && OneKeyLast(c, r) && j <= i < |c.routes[r].source| && KeyOf(c, Job(r, j)).Some?
    ensures KeyOf(c, Job(r, i)).Some?
  {
  }

  /** Once something with a key was read, everything without one has been handled. */
  lemma {:induction false} InlineComplete(c: Config, log: seq<Event>, r: nat, route: Route, j: nat)
    requires InlineOk(c, log, r, route) && r < |c.routes| && OneKeyLast(c, r) && route.taken <= |c.routes[r].source|
    requires j < route.taken && KeyOf(c, Job(r, j)).Some?
    ensures InlineLog(c, log, r) == NoneScripts(c, r, |c.routes[r].source|)
  {
    KeyAfter(c, r, j, route.taken - 1);
    forall i | route.taken <= i < |c.routes[r].source| ensures KeyOf(c, Job(r, i)).Some? {
      assert c.routes[r].source[i].key == c.routes[r].source[j].key;
    }
    NoneScriptsGrow(c, r, route.taken, |c.routes[r].source|);
  }

  lemma PrefixOfBoth(a: seq<Event>, b: seq<Event>, x: seq<Event>, y: seq<Event>)
    requires a <= x && b <= y && (b != [] ==> a == x)
    ensures a + b <= x + y
  {
  }

  /** With the keys in this order a route, whatever else happens, emits a prefix of what the
      sequential loop emits. */
  lemma {:induction false} KeepsOrder(c: Config, s: State, r: nat)
    requires Reachable(c, s) && PanicFree(s) && r < |c.routes| && OneKeyLast(c, r)
    ensures RouteLog(s.log, r) <= SequentialLog(c, r)
  {
    var n := |c.routes[r].source|;
    var key := TheKey(c, r);
    InlineReachable(c, s);
    SplitLog(c, s.log, r, key);
    SplitScripts(c, r, key, n);
    SequentialIsWholeScripts(c, r, n);
    KeyedPrefix(c, s, key, r);
    InlineBeforeKeyed(c, s, r, key);
    PrefixOfBoth(InlineLog(c, s.log, r), KeyedOf(c, s.log, r, key),
                 NoneScripts(c, r, n), Scripts(c, r, KeyedBelow(c, r, key, n)));
  }

  lemma {:induction false} InlineBeforeKeyed(c: Config, s: State, r: nat, key: Key)
    requires Inv(c, s) && AllInlineOk(c, s) && r < |c.routes| && OneKeyLast(c, r)
    ensures InlineLog(c, s.log, r) <= NoneScripts(c, r, |c.routes[r].source|)
    ensures KeyedOf(c, s.log, r, key) != [] ==> InlineLog(c, s.log, r) == NoneScripts(c, r, |c.routes[r].source|)
  {
    assert InlineOk(c, s.log, r, s.routes[r]);
    InlinePrefix(c, s.log, r, s.routes[r]);
    NoneScriptsGrow(c, r, s.routes[r].taken, |c.routes[r].source|);
    if a :| 0 <= a < |s.log| && s.log[a].job.route == r && KeyOf(c, s.log[a].job).Some? {
      KeyedWasTaken(c, s, a);
      assert s.log[a].job == Job(r, s.log[a].job.index);
      InlineComplete(c, s.log, r, s.routes[r], s.log[a].job.index);
    } else {
      NothingKeyed(c, s.log, r, key);
    }
  }
}
