/** What a route waits for that found its key retiring, and that every step brings it no further away. */
module PartitionWaiters {
  import opened Options
  import opened RouteJob
  import opened PartitionRegistry
  import opened PartitionModel
  import opened PartitionControl
  import opened PartitionJobs
  import opened PartitionTheorems
  import opened PartitionRetirement

  /** Route `r` waits for generation `g` of `key` to be gone. */
  predicate WaitsOn(s: State, key: Key, g: nat, r: nat) {
    && IsWaiter(s.registry, key, r) && s.registry.entries[key].gen == g
    && r < |s.routes| && s.routes[r].phase.Waiting?
  }

  predicate IsOver(workers: map<nat, Worker>, g: nat) {
    g in workers && workers[g].mode.Done?
  }

  /** The position of a command in the queue, or the length of the queue. */
  function IndexOf(commands: seq<Command>, x: Command): (p: nat)
    ensures p <= |commands| && (p < |commands| <==> x in commands) && (p < |commands| ==> commands[p] == x)
  {
    if commands == [] || commands[0] == x then 0 else 1 + IndexOf(commands[1..], x)
  }

  /** How far the notice that `g` is gone is from being handled, once there is one. */
  function NoticeAt(s: State, key: Key, g: nat): nat {
    if IsOver(s.workers, g) then 1 + IndexOf(s.commands, Retired(key, g)) else 0
  }

  /** What a waiter still waits for: first the work left to the generation, then the notice. */
  datatype Rank = Rank(work: nat, notice: nat)

  function RankOf(c: Config, s: State, key: Key, g: nat): Rank {
    Rank(Remaining(c, s, g), NoticeAt(s, key, g))
  }

  predicate Less(a: Rank, b: Rank) {
    a.work < b.work || (a.work == b.work && a.notice < b.notice)
  }

  predicate AtMost(a: Rank, b: Rank) {
    Less(a, b) || a == b
  }

  /** A step that brings the waiter closer: one of `g`'s own until `g` is gone, then one of the registry's. */
  predicate Helps(s: State, step: Step, g: nat) {
    if IsOver(s.workers, g) then step == HandleCommand else StepOf(s, step, g)
  }

  /** The waiter has just been handed a sender of a generation after `g`. */
  predicate Served(s: State, t: State, g: nat, r: nat) {
    && r < |s.routes| && r < |t.routes| && s.routes[r].phase.Waiting?
    && t.routes[r].phase.Granted? && t.routes[r].phase.index == s.routes[r].phase.index && t.routes[r].phase.gen > g
    && t.routes[r].phase.gen in t.workers && !t.workers[t.routes[r].phase.gen].mode.Done?
  }

  // ---------- one step ----------

  lemma WaitedIsLeaving(c: Config, s: State, key: Key, g: nat, r: nat)
    requires EntriesOk(s) && WaitsOn(s, key, g, r)
    ensures Leaving(s.workers, g) && s.workers[g].key == key
  {
    assert EntryOk(s.workers, key, s.registry.entries[key]);
  }

  lemma IndexOfAppended(commands: seq<Command>, after: seq<Command>, x: Command)
    requires commands <= after && x in commands
    ensures IndexOf(after, x) == IndexOf(commands, x)
  {
    if commands[0] != x {
      assert x in commands[1..] && commands[1..] <= after[1..];
      IndexOfAppended(commands[1..], after[1..], x);
    }
  }

  /** The entry of a retiring generation keeps its generation until its notice is handled. */
  lemma RetiringKept(reg: Registry, command: Command, key: Key, open: set<nat>)
    requires key in reg.entries && reg.entries[key].Retiring? && !(command.Retired? && command.key == key)
    ensures var after := React(reg, command, open).registry.entries;
            key in after && after[key].Retiring? && after[key].gen == reg.entries[key].gen
  {
  }

  lemma RegistryOf(s: State)
    requires s.commands != []
    ensures ApplyRegistry(s).registry == React(s.registry, s.commands[0], OpenRequests(s)).registry
    ensures ApplyRegistry(s).commands == s.commands[1..]
  {
  }

  /** The notice of `g` is the only one for its key. */
  lemma OneNotice(c: Config, s: State, key: Key, g: nat, r: nat)
    requires Control(c, s) && WaitsOn(s, key, g, r) && s.registryUp && s.commands != []
    requires s.commands[0].Retired? && s.commands[0].key == key
    ensures s.commands[0] == Retired(key, g)
  {
    RetiredFindsDrained(c, s, key, s.commands[0].gen);
  }

  lemma TaskKeepsWaiting(c: Config, s: State, step: Step, key: Key, g: nat, r: nat)
    requires LifeOk(s) && |s.routes| == |c.routes| && Enabled(c, s, step) && step != HandleCommand
    requires WaitsOn(s, key, g, r) && step != OfRoute(r, AbortRoute)
    ensures var t := Apply(c, s, step);
            WaitsOn(t, key, g, r) && s.commands <= t.commands
  {
    WaiterOverTasks(c, s, step, key, r);
    match step {
      case OfRoute(q, act) => RouteAround(c, s, q, act);
      case OfWorker(h, task) => WorkerAround(c, s, h, task);
      case DropHandles =>
      case StopRegistry => WaiterKeepsRegistryUp(s, r);
    }
  }

  lemma RegistryKeepsWaiting(c: Config, s: State, key: Key, g: nat, r: nat)
    requires Inv(c, s) && s.registryUp && s.commands != [] && WaitsOn(s, key, g, r)
    requires s.commands[0] != Retired(key, g)
    ensures WaitsOn(ApplyRegistry(s), key, g, r)
  {
    if s.commands[0].Retired? && s.commands[0].key == key {
      OneNotice(c, s, key, g, r);
      assert false;
    }
    WaiterNotGranted(c, s, key, r);
    RegistryOf(s);
    RetiringKept(s.registry, s.commands[0], key, OpenRequests(s));
  }

  lemma RouteKeepsMode(c: Config, s: State, r: nat, act: RouteStep, g: nat)
    requires |s.routes| == |c.routes| && EnabledRoute(c, s, r, act) && g in s.workers
    ensures g in ApplyRoute(c, s, r, act).workers && ApplyRoute(c, s, r, act).workers[g].mode == s.workers[g].mode
  {
  }

  lemma WorkerKeepsOver(c: Config, s: State, h: nat, task: WorkerStep, g: nat)
    requires EnabledWorker(c, s, h, task) && Leaving(s.workers, g) && (h == g ==> !task.CloseWorker?)
    requires WorkerOk(c, s.workers[g])
    ensures IsOver(ApplyWorker(c, s, h, task).workers, g) <==> IsOver(s.workers, g)
  {
  }

  /** Only its own steps end a generation. */
  lemma OverByOwnStep(c: Config, s: State, step: Step, g: nat)
    requires Control(c, s) && Enabled(c, s, step) && Leaving(s.workers, g) && step != OfWorker(g, CloseWorker)
    ensures IsOver(Apply(c, s, step).workers, g) <==> IsOver(s.workers, g)
  {
    match step {
      case OfRoute(r, act) => RouteKeepsMode(c, s, r, act, g);
      case OfWorker(h, task) => WorkerKeepsOver(c, s, h, task, g);
      case HandleCommand => RegistryLeavesAlone(c, s, g);
      case DropHandles =>
      case StopRegistry =>
    }
  }

  /** Before `g` is gone: its own steps use up its work, and no other step adds to it. */
  lemma RankBefore(c: Config, s: State, step: Step, key: Key, g: nat)
    requires Inv(c, s) && Enabled(c, s, step) && Leaving(s.workers, g) && !IsOver(s.workers, g)
    ensures var t := Apply(c, s, step);
            AtMost(RankOf(c, t, key, g), RankOf(c, s, key, g)) && (StepOf(s, step, g) ==> Less(RankOf(c, t, key, g), RankOf(c, s, key, g)))
  {
    RetirementProgresses(c, s, step, g);
    if !StepOf(s, step, g) {
      OverByOwnStep(c, s, step, g);
    }
  }

  /** After it: the notice moves up with every command that is handled. */
  lemma RankAfter(c: Config, s: State, step: Step, key: Key, g: nat)
    requires Inv(c, s) && Enabled(c, s, step) && Leaving(s.workers, g) && IsOver(s.workers, g)
    requires Retired(key, g) in s.commands && (step == HandleCommand ==> s.commands[0] != Retired(key, g))
    requires step != HandleCommand ==> s.commands <= Apply(c, s, step).commands
    ensures var t := Apply(c, s, step);
            AtMost(RankOf(c, t, key, g), RankOf(c, s, key, g)) && (step == HandleCommand ==> Less(RankOf(c, t, key, g), RankOf(c, s, key, g)))
  {
    var t := Apply(c, s, step);
    RetirementProgresses(c, s, step, g);
    assert step != OfWorker(g, CloseWorker);
    OverByOwnStep(c, s, step, g);
    if step == HandleCommand {
      RegistryOf(s);
      assert Retired(key, g) in s.commands[1..];
    } else {
      IndexOfAppended(s.commands, t.commands, Retired(key, g));
    }
  }

  lemma KeepsWaiting(c: Config, s: State, step: Step, key: Key, g: nat, r: nat)
    requires Inv(c, s) && Enabled(c, s, step) && WaitsOn(s, key, g, r) && step != OfRoute(r, AbortRoute)
    requires step == HandleCommand ==> s.commands[0] != Retired(key, g)
    ensures WaitsOn(Apply(c, s, step), key, g, r)
    ensures step != HandleCommand ==> s.commands <= Apply(c, s, step).commands
  {
    if step == HandleCommand {
      RegistryKeepsWaiting(c, s, key, g, r);
    } else {
      TaskKeepsWaiting(c, s, step, key, g, r);
    }
  }

  lemma KeepsRank(c: Config, s: State, step: Step, key: Key, g: nat, r: nat)
    requires Inv(c, s) && Enabled(c, s, step) && WaitsOn(s, key, g, r)
    requires step == HandleCommand ==> s.commands[0] != Retired(key, g)
    requires step != HandleCommand ==> s.commands <= Apply(c, s, step).commands
    ensures AtMost(RankOf(c, Apply(c, s, step), key, g), RankOf(c, s, key, g))
    ensures Helps(s, step, g) ==> Less(RankOf(c, Apply(c, s, step), key, g), RankOf(c, s, key, g))
  {
    WaitedIsLeaving(c, s, key, g, r);
    if IsOver(s.workers, g) {
      RankAfter(c, s, step, key, g);
    } else {
      RankBefore(c, s, step, key, g);
    }
  }

  lemma NoticeServes(c: Config, s: State, key: Key, g: nat, r: nat)
    requires Inv(c, s) && s.registryUp && s.commands != [] && s.commands[0] == Retired(key, g) && WaitsOn(s, key, g, r)
    ensures Served(s, ApplyRegistry(s), g, r)
  {
    WaitersGetNextGeneration(c, s, key, g, r);
  }

  /** One step of anybody, while the route waits and is not cancelled: either it hands the route a
      sender of a later generation, or the route still waits and is no further from being served;
      and nearer, if the step was one that helps. */
  lemma WaiterStep(c: Config, s: State, step: Step, key: Key, g: nat, r: nat)
    requires Inv(c, s) && Enabled(c, s, step) && WaitsOn(s, key, g, r) && step != OfRoute(r, AbortRoute)
    ensures var t := Apply(c, s, step);
            || Served(s, t, g, r)
            || (WaitsOn(t, key, g, r)
                && AtMost(RankOf(c, t, key, g), RankOf(c, s, key, g))
                && (Helps(s, step, g) ==> Less(RankOf(c, t, key, g), RankOf(c, s, key, g))))
  {
    if step == HandleCommand && s.commands[0] == Retired(key, g) {
      NoticeServes(c, s, key, g, r);
    } else {
      KeepsWaiting(c, s, step, key, g, r);
      KeepsRank(c, s, step, key, g, r);
    }
  }

  /** A helping step that is not a panic is always there to be taken. */
  lemma HelpIsEnabled(c: Config, s: State, key: Key, g: nat, r: nat)
    requires Inv(c, s) && c.capacity > 0 && WaitsOn(s, key, g, r)
    ensures exists step :: Enabled(c, s, step) && Helps(s, step, g) && step != OfWorker(g, Panic)
  {
    WaitedIsLeaving(c, s, key, g, r);
    if IsOver(s.workers, g) {
      WaiterKeepsRegistryUp(s, r);
      assert Retired(key, g) in s.commands;
      assert Enabled(c, s, HandleCommand);
    } else {
      RetirementNeverStalls(c, s, g);
    }
  }
}
