/** Where the order of a whole route is lost: a message can overtake the one before it whenever that
    one has a key and it does not have the same. */
module PartitionOvertaking {
  import opened Options
  import opened RouteJob
  import opened PartitionRegistry
  import opened PartitionModel
  import opened PartitionControl
  import opened PartitionJobs
  import opened PartitionTheorems
  import opened PartitionRefinement
  import opened PartitionOrder

  ghost predicate Good(c: Config, s: State) {
    Reachable(c, s) && PanicFree(s) && |s.routes| == |c.routes|
  }

  lemma PanicFreeWorker(c: Config, s: State, g: nat, task: WorkerStep)
    requires PanicFree(s) && EnabledWorker(c, s, g, task) && !task.Panic?
    ensures PanicFree(ApplyWorker(c, s, g, task))
  {
    var t, w := ApplyWorker(c, s, g, task), s.workers[g];
    forall key, k | 0 <= k < |RunsOf(t, key)| ensures !RunsOf(t, key)[k].ending.Panicked? {
      assert key != w.key ==> RunsOf(t, key) == RunsOf(s, key);
      if k < |RunsOf(s, key)| {
        assert !RunsOf(s, key)[k].ending.Panicked?;
      }
    }
  }

  lemma PanicFreeSame(s: State, t: State)
    requires PanicFree(s) && t.runs == s.runs
    ensures PanicFree(t)
  {
    assert forall key :: RunsOf(t, key) == RunsOf(s, key);
  }

  lemma PanicFreeRoute(c: Config, s: State, r: nat, act: RouteStep)
    requires PanicFree(s) && |s.routes| == |c.routes| && EnabledRoute(c, s, r, act)
    ensures PanicFree(ApplyRoute(c, s, r, act)) && |ApplyRoute(c, s, r, act).routes| == |c.routes|
  {
    PanicFreeSame(s, ApplyRoute(c, s, r, act));
  }

  lemma GoodRoute(c: Config, s: State, r: nat, act: RouteStep)
    requires Good(c, s) && EnabledRoute(c, s, r, act)
    ensures Good(c, ApplyRoute(c, s, r, act))
  {
    ReachableStep(c, s, OfRoute(r, act));
    PanicFreeRoute(c, s, r, act);
  }

  lemma GoodWorker(c: Config, s: State, g: nat, task: WorkerStep)
    requires Good(c, s) && EnabledWorker(c, s, g, task) && !task.Panic?
    ensures Good(c, ApplyWorker(c, s, g, task))
  {
    ReachableStep(c, s, OfWorker(g, task));
    PanicFreeWorker(c, s, g, task);
    assert ApplyWorker(c, s, g, task).routes == s.routes;
  }

  lemma RegistrySame(s: State)
    requires s.commands != []
    ensures ApplyRegistry(s).runs == s.runs && |ApplyRegistry(s).routes| == |s.routes|
  {
  }

  lemma GoodRegistry(c: Config, s: State)
    requires Good(c, s) && s.registryUp && s.commands != []
    ensures Good(c, ApplyRegistry(s))
  {
    ReachableStep(c, s, HandleCommand);
    RegistrySame(s);
    PanicFreeSame(s, ApplyRegistry(s));
  }

  /** A worker that serves and runs nothing. */
  predicate Resting(w: Worker) {
    w.mode.Serving? && w.running.None?
  }

  ghost predicate AllRest(workers: map<nat, Worker>) {
    forall g :: g in workers ==> Resting(workers[g])
  }

  ghost predicate NoneQueued(workers: map<nat, Worker>, key: Key) {
    forall g :: g in workers && workers[g].key == key ==> workers[g].queue == []
  }

  ghost predicate AllEmpty(workers: map<nat, Worker>) {
    forall g :: g in workers ==> workers[g].queue == []
  }

  /** The route has read `taken` messages and is in this phase; the registry has nothing to do. */
  ghost predicate At(c: Config, s: State, r: nat, taken: nat, phase: Phase) {
    && Good(c, s) && s.registryUp && s.handles && s.commands == [] && r < |s.routes|
    && s.routes[r].taken == taken && s.routes[r].open && s.routes[r].phase == phase
  }

  ghost predicate Ready(c: Config, s: State, r: nat, taken: nat) {
    At(c, s, r, taken, Polling) && AllRest(s.workers)
  }

  // ---------- handing a message to the worker of its key ----------

  /** The registry knows the worker of every key it serves. */
  lemma RestingEntry(s: State, key: Key)
    requires EntriesOk(s) && AllRest(s.workers) && key in s.registry.entries
    ensures s.registry.entries[key].Active?
    ensures var gen := s.registry.entries[key].gen; gen in s.workers && s.workers[gen].key == key
  {
    assert EntryOk(s.workers, key, s.registry.entries[key]);
  }

  /** Reading a message with a key and asking for its worker. */
  lemma Asks(c: Config, s: State, r: nat, m: nat, key: Key) returns (t: State)
    requires Ready(c, s, r, m) && m < |c.routes[r].source| && c.routes[r].source[m].key == Some(key)
    ensures Good(c, t) && t.registryUp && t.handles && t.commands == [Acquire(key, r)] && r < |t.routes|
    ensures t.routes[r].taken == m + 1 && t.routes[r].open && t.routes[r].phase == Waiting(m)
    ensures t.workers == s.workers && t.registry == s.registry && t.log == s.log
  {
    GoodRoute(c, s, r, Take);
    var read := ApplyRoute(c, s, r, Take);
    assert read.routes[r].phase == Submitting(m) && KeyOf(c, Job(r, m)) == Some(key);
    GoodRoute(c, read, r, SendAcquire);
    t := ApplyRoute(c, read, r, SendAcquire);
  }

  /** The workers after a message for `key` found the worker it will go to. */
  ghost predicate Found(workers: map<nat, Worker>, after: map<nat, Worker>, key: Key, g: nat) {
    && g in after && after[g] == Worker(key, Serving, [], None)
    && forall h :: h in after && h != g ==> h in workers && after[h] == workers[h]
  }

  lemma RegistryGrants(c: Config, s: State, r: nat, m: nat, key: Key) returns (g: nat)
    requires s.registryUp && s.commands == [Acquire(key, r)] && r < |s.routes| && s.routes[r].phase == Waiting(m)
    requires EntriesOk(s) && AllRest(s.workers) && NoneQueued(s.workers, key)
    ensures var t := ApplyRegistry(s);
            && t.commands == [] && t.registryUp && t.handles == s.handles && |t.routes| == |s.routes|
            && t.routes[r] == s.routes[r].(phase := Granted(m, g))
            && Found(s.workers, t.workers, key, g) && t.log == s.log
  {
    if key in s.registry.entries {
      RestingEntry(s, key);
      g := s.registry.entries[key].gen;
      assert s.workers[g] == Worker(key, Serving, [], None);
    } else {
      g := s.registry.nextGeneration;
    }
  }

  lemma IsGranted(c: Config, s: State, r: nat, m: nat, key: Key) returns (t: State, g: nat)
    requires Good(c, s) && s.registryUp && s.handles && s.commands == [Acquire(key, r)] && r < |s.routes|
    requires s.routes[r].taken == m + 1 && s.routes[r].open && s.routes[r].phase == Waiting(m)
    requires AllRest(s.workers) && NoneQueued(s.workers, key)
    ensures At(c, t, r, m + 1, Granted(m, g)) && Found(s.workers, t.workers, key, g) && t.log == s.log
  {
    InvReachable(c, s);
    g := RegistryGrants(c, s, r, m, key);
    GoodRegistry(c, s);
    t := ApplyRegistry(s);
  }

  /** Taking the sender and handing the job over. */
  lemma Sends(c: Config, s: State, r: nat, m: nat, key: Key, g: nat) returns (t: State)
    requires At(c, s, r, m + 1, Granted(m, g)) && c.capacity > 0
    requires g in s.workers && s.workers[g] == Worker(key, Serving, [], None)
    ensures At(c, t, r, m + 1, Polling) && t.log == s.log
    ensures t.workers == s.workers[g := Worker(key, Serving, [Job(r, m)], None)]
  {
    GoodRoute(c, s, r, ReceiveSender);
    var held := ApplyRoute(c, s, r, ReceiveSender);
    GoodRoute(c, held, r, Send);
    t := ApplyRoute(c, held, r, Send);
    assert [] + [Job(r, m)] == [Job(r, m)];
  }

  lemma HandOver(c: Config, s: State, r: nat, m: nat, key: Key) returns (t: State, g: nat)
    requires Ready(c, s, r, m) && m < |c.routes[r].source| && c.routes[r].source[m].key == Some(key)
    requires NoneQueued(s.workers, key) && c.capacity > 0
    ensures Ready(c, t, r, m + 1) && t.log == s.log
    ensures g in t.workers && t.workers[g] == Worker(key, Serving, [Job(r, m)], None)
    ensures forall h :: h in t.workers && h != g ==> h in s.workers && t.workers[h] == s.workers[h]
  {
    var asked := Asks(c, s, r, m, key);
    var granted;
    granted, g := IsGranted(c, asked, r, m, key);
    t := Sends(c, granted, r, m, key, g);
  }

  // ---------- a worker at work ----------

  /** Worker `g` has emitted `done` effects of message `m` of the route, after `before`. */
  ghost predicate Working(c: Config, s: State, r: nat, m: nat, g: nat, done: nat, before: seq<Event>) {
    && At(c, s, r, m + 1, Polling) && ValidJob(c, Job(r, m)) && done <= |JobScript(c, Job(r, m))|
    && g in s.workers && s.workers[g].mode.Serving? && s.workers[g].queue == []
    && s.workers[g].running == Some(Progress(Job(r, m), done))
    && (forall h :: h in s.workers && h != g ==> Resting(s.workers[h]))
    && RouteLog(s.log, r) == before + WholeRun(c, Job(r, m))[..done]
  }

  ghost predicate SameOthers(s: State, t: State, g: nat) {
    forall h :: h in t.workers && h != g ==> h in s.workers && t.workers[h] == s.workers[h]
  }

  lemma Starts(c: Config, s: State, r: nat, m: nat, g: nat) returns (t: State)
    requires Ready(c, s, r, m + 1) && ValidJob(c, Job(r, m))
    requires g in s.workers && s.workers[g].queue == [Job(r, m)]
    ensures Working(c, t, r, m, g, 0, RouteLog(s.log, r)) && SameOthers(s, t, g)
  {
    GoodWorker(c, s, g, Start);
    t := ApplyWorker(c, s, g, Start);
    assert RouteLog(s.log, r) + WholeRun(c, Job(r, m))[..0] == RouteLog(s.log, r);
  }

  lemma Emits(c: Config, s: State, r: nat, m: nat, g: nat, done: nat, before: seq<Event>) returns (t: State)
    requires Working(c, s, r, m, g, done, before) && done < |JobScript(c, Job(r, m))|
    ensures Working(c, t, r, m, g, done + 1, before) && SameOthers(s, t, g)
  {
    GoodWorker(c, s, g, Emit);
    t := ApplyWorker(c, s, g, Emit);
    OneMoreEvent(c, s.log, r, m, done, before);
  }

  lemma {:induction false} OneMoreEvent(c: Config, log: seq<Event>, r: nat, m: nat, done: nat, before: seq<Event>)
    requires ValidJob(c, Job(r, m)) && done < |JobScript(c, Job(r, m))|
    requires RouteLog(log, r) == before + WholeRun(c, Job(r, m))[..done]
    ensures RouteLog(log + [Event(Job(r, m), JobScript(c, Job(r, m))[done])], r) == before + WholeRun(c, Job(r, m))[..done + 1]
  {
    var whole, e := WholeRun(c, Job(r, m)), Event(Job(r, m), JobScript(c, Job(r, m))[done]);
    RouteLogLast(log, e, r);
    assert whole[done] == e && whole[..done + 1] == whole[..done] + [e];
    assert before + whole[..done] + [e] == before + (whole[..done] + [e]);
  }

  lemma {:induction false} WorksToTheEnd(c: Config, s: State, r: nat, m: nat, g: nat, done: nat, before: seq<Event>)
      returns (t: State)
    requires Working(c, s, r, m, g, done, before)
    ensures Working(c, t, r, m, g, |JobScript(c, Job(r, m))|, before) && SameOthers(s, t, g)
    decreases |JobScript(c, Job(r, m))| - done
  {
    if done == |JobScript(c, Job(r, m))| {
      t := s;
    } else {
      var next := Emits(c, s, r, m, g, done, before);
      t := WorksToTheEnd(c, next, r, m, g, done + 1, before);
    }
  }

  lemma Finishes(c: Config, s: State, r: nat, m: nat, g: nat, before: seq<Event>) returns (t: State)
    requires ValidJob(c, Job(r, m)) && Working(c, s, r, m, g, |JobScript(c, Job(r, m))|, before)
    ensures Ready(c, t, r, m + 1) && RouteLog(t.log, r) == before + WholeRun(c, Job(r, m))
    ensures SameOthers(s, t, g) && g in t.workers && t.workers[g].queue == []
  {
    GoodWorker(c, s, g, Complete);
    t := ApplyWorker(c, s, g, Complete);
    var whole := WholeRun(c, Job(r, m));
    assert whole[..|whole|] == whole;
  }

  // ---------- a message without a key ----------

  /** The route has emitted `done` effects of message `m`, inline, after `before`. */
  ghost predicate Handling(c: Config, s: State, r: nat, m: nat, done: nat, before: seq<Event>) {
    && At(c, s, r, m + 1, Inline(m, done)) && ValidJob(c, Job(r, m)) && done <= |JobScript(c, Job(r, m))|
    && AllRest(s.workers) && RouteLog(s.log, r) == before + WholeRun(c, Job(r, m))[..done]
  }

  lemma Reads(c: Config, s: State, r: nat, m: nat) returns (t: State)
    requires Ready(c, s, r, m) && m < |c.routes[r].source| && c.routes[r].source[m].key.None?
    ensures Handling(c, t, r, m, 0, RouteLog(s.log, r)) && t.workers == s.workers
  {
    GoodRoute(c, s, r, Take);
    t := ApplyRoute(c, s, r, Take);
    assert RouteLog(s.log, r) + WholeRun(c, Job(r, m))[..0] == RouteLog(s.log, r);
  }

  lemma EmitsInline(c: Config, s: State, r: nat, m: nat, done: nat, before: seq<Event>) returns (t: State)
    requires Handling(c, s, r, m, done, before) && done < |JobScript(c, Job(r, m))|
    ensures Handling(c, t, r, m, done + 1, before) && t.workers == s.workers
  {
    GoodRoute(c, s, r, EmitInline);
    t := ApplyRoute(c, s, r, EmitInline);
    OneMoreEvent(c, s.log, r, m, done, before);
  }

  lemma {:induction false} HandlesToTheEnd(c: Config, s: State, r: nat, m: nat, done: nat, before: seq<Event>)
      returns (t: State)
    requires Handling(c, s, r, m, done, before)
    ensures Ready(c, t, r, m + 1) && t.workers == s.workers && RouteLog(t.log, r) == before + WholeRun(c, Job(r, m))
    decreases |JobScript(c, Job(r, m))| - done
  {
    if done == |JobScript(c, Job(r, m))| {
      GoodRoute(c, s, r, EndInline);
      t := ApplyRoute(c, s, r, EndInline);
      assert WholeRun(c, Job(r, m))[..done] == WholeRun(c, Job(r, m));
    } else {
      var next := EmitsInline(c, s, r, m, done, before);
      t := HandlesToTheEnd(c, next, r, m, done + 1, before);
    }
  }

  // ---------- one message after the other, and then one too early ----------

  /** A run in which the first `m` messages of the route were handled one after the other. */
  lemma {:induction false} Clean(c: Config, r: nat, m: nat) returns (s: State)
    requires c.capacity > 0 && r < |c.routes| && m <= |c.routes[r].source|
    ensures Ready(c, s, r, m) && AllEmpty(s.workers) && RouteLog(s.log, r) == WholeScripts(c, r, m)
  {
    if m == 0 {
      s := Init(c);
      assert Reaches(c, Init(c), [], s);
    } else {
      var before := Clean(c, r, m - 1);
      s := CleanStep(c, before, r, m - 1);
    }
  }

  lemma CleanStep(c: Config, s: State, r: nat, m: nat) returns (t: State)
    requires c.capacity > 0 && r < |c.routes| && m < |c.routes[r].source|
    requires Ready(c, s, r, m) && AllEmpty(s.workers) && RouteLog(s.log, r) == WholeScripts(c, r, m)
    ensures Ready(c, t, r, m + 1) && AllEmpty(t.workers) && RouteLog(t.log, r) == WholeScripts(c, r, m + 1)
  {
    match c.routes[r].source[m].key {
      case None =>
        var read := Reads(c, s, r, m);
        t := HandlesToTheEnd(c, read, r, m, 0, RouteLog(s.log, r));
      case Some(key) =>
        var handed, g := HandOver(c, s, r, m, key);
        var started := Starts(c, handed, r, m, g);
        var worked := WorksToTheEnd(c, started, r, m, g, 0, RouteLog(handed.log, r));
        t := Finishes(c, worked, r, m, g, RouteLog(handed.log, r));
    }
  }

  /** The next message starts: inline if it has no key, otherwise with the worker of its key. */
  lemma Begins(c: Config, s: State, r: nat, m: nat) returns (t: State)
    requires c.capacity > 0 && Ready(c, s, r, m) && m < |c.routes[r].source| && c.routes[r].source[m].effects != []
    requires c.routes[r].source[m].key.Some? ==> NoneQueued(s.workers, c.routes[r].source[m].key.value)
    ensures Good(c, t) && RouteLog(t.log, r) == RouteLog(s.log, r) + WholeRun(c, Job(r, m))[..1]
  {
    match c.routes[r].source[m].key {
      case None =>
        var read := Reads(c, s, r, m);
        t := EmitsInline(c, read, r, m, 0, RouteLog(s.log, r));
      case Some(key) =>
        var handed, h := HandOver(c, s, r, m, key);
        var started := Starts(c, handed, r, m, h);
        t := Emits(c, started, r, m, h, 0, RouteLog(handed.log, r));
    }
  }

  /** Message `i` is with its worker, which has not started; message `i + 1` has emitted something. */
  lemma Overtakes(c: Config, r: nat, i: nat) returns (s: State)
    requires c.capacity > 0 && r < |c.routes| && i + 1 < |c.routes[r].source|
    requires c.routes[r].source[i].key.Some? && c.routes[r].source[i + 1].key != c.routes[r].source[i].key
    requires c.routes[r].source[i + 1].effects != []
    ensures Good(c, s) && RouteLog(s.log, r) == WholeScripts(c, r, i) + WholeRun(c, Job(r, i + 1))[..1]
  {
    var clean := Clean(c, r, i);
    var waiting, g := HandOver(c, clean, r, i, c.routes[r].source[i].key.value);
    s := Begins(c, waiting, r, i + 1);
  }

  lemma {:induction false} WholeScriptsGrow(c: Config, r: nat, n: nat, m: nat)
    requires n <= m
    ensures WholeScripts(c, r, n) <= WholeScripts(c, r, m)
  {
    if n < m {
      WholeScriptsGrow(c, r, n, m - 1);
    }
  }

  lemma NotAPrefix(before: seq<Event>, a: seq<Event>, b: seq<Event>, all: seq<Event>)
    requires a != [] && b != [] && a[0] != b[0] && before + a <= all
    ensures !(before + b <= all)
  {
    assert (before + a)[|before|] == a[0] && (before + b)[|before|] == b[0];
  }

  lemma OvertakenIsOutOfOrder(c: Config, r: nat, i: nat)
    requires r < |c.routes| && i + 1 < |c.routes[r].source|
    requires c.routes[r].source[i].effects != [] && c.routes[r].source[i + 1].effects != []
    ensures !(WholeScripts(c, r, i) + WholeRun(c, Job(r, i + 1))[..1] <= SequentialLog(c, r))
  {
    var n := |c.routes[r].source|;
    SequentialIsWholeScripts(c, r, n);
    WholeScriptsGrow(c, r, i + 1, n);
    NotAPrefix(WholeScripts(c, r, i), WholeRun(c, Job(r, i)), WholeRun(c, Job(r, i + 1))[..1], SequentialLog(c, r));
  }

  /** Somewhere between them the key changes. */
  lemma {:induction false} KeyChanges(c: Config, r: nat, i: nat, j: nat) returns (k: nat)
    requires r < |c.routes| && i < j < |c.routes[r].source|
    requires c.routes[r].source[i].key.Some? && c.routes[r].source[j].key != c.routes[r].source[i].key
    ensures k + 1 < |c.routes[r].source|
    ensures c.routes[r].source[k].key.Some? && c.routes[r].source[k + 1].key != c.routes[r].source[k].key
    decreases j - i
  {
    if c.routes[r].source[i + 1].key != c.routes[r].source[i].key {
      k := i;
    } else {
      k := KeyChanges(c, r, i + 1, j);
    }
  }

  lemma ScriptsAreNotEmpty(c: Config, r: nat, b: Binding, outcomes: seq<Outcome>, i: nat)
    requires Processes(c, r, b, outcomes) && i < |outcomes|
    ensures c.routes[r].source[i].effects != []
  {
    SettlementDiscipline(b, outcomes[i]);
  }

  /** Every panic-free run of a route emits a prefix of what the sequential loop emits, key-less
      messages included, exactly when no message after one with a key has another key or none. */
  lemma {:induction false} WholeRouteOrder(c: Config, r: nat, b: Binding, outcomes: seq<Outcome>)
    requires c.capacity > 0 && Processes(c, r, b, outcomes)
    ensures (forall s :: Reachable(c, s) && PanicFree(s) ==> RouteLog(s.log, r) <= SequentialLog(c, r))
       <==> OneKeyLast(c, r)
  {
    if OneKeyLast(c, r) {
      forall s | Reachable(c, s) && PanicFree(s) ensures RouteLog(s.log, r) <= SequentialLog(c, r) {
        KeepsOrder(c, s, r);
      }
    } else {
      var source := c.routes[r].source;
      var i, j :| 0 <= i < j < |source| && source[i].key.Some? && source[j].key != source[i].key;
      var k := KeyChanges(c, r, i, j);
      ScriptsAreNotEmpty(c, r, b, outcomes, k);
      ScriptsAreNotEmpty(c, r, b, outcomes, k + 1);
      var s := Overtakes(c, r, k);
      OvertakenIsOutOfOrder(c, r, k);
    }
  }
}
