/** Two runs that show where partitioned execution is not the sequential loop. */
module PartitionLimits {
  import opened Options
  import opened RouteJob
  import opened PartitionRegistry
  import opened PartitionModel
  import opened PartitionControl
  import opened PartitionJobs
  import opened PartitionTheorems
  import opened PartitionRefinement

  const NO_TARGETS := Binding(false, false, Reject)
  const FINE := Outcome(true, true, true, false, true, true, true)

  /** One route, a message with a key and then one whose key cannot be resolved. */
  function TwoMessages(): Config {
    Config(1, [RouteConfig([
      Message(Some("k"), [Handled(true), Settled(Ack)]),
      Message(None, [Settled(Reject)])])])
  }

  /** The first message has been handed to its worker; nothing has run yet. */
  function Handed(): State {
    State([Route(1, true, {0}, Polling)], Registry(map["k" := Active(1)], 2), [], true, true,
          map[1 := Worker("k", Serving, [Job(0, 0)], None)], multiset{}, map["k" := 1], map[], [])
  }

  lemma HandedIsReachable()
    ensures Reachable(TwoMessages(), Handed())
  {
    var c := TwoMessages();
    var s0 := Init(c);
    assert s0.routes == [Route(0, true, {}, Polling)];
    assert Reaches(c, s0, [], s0);
    ReachableStep(c, s0, OfRoute(0, Take));
    var s1 := s0.(routes := [Route(1, true, {}, Submitting(0))]);
    assert Apply(c, s0, OfRoute(0, Take)) == s1;
    ReachableStep(c, s1, OfRoute(0, SendAcquire));
    var s2 := s1.(routes := [Route(1, true, {}, Waiting(0))], commands := [Acquire("k", 0)]);
    assert Apply(c, s1, OfRoute(0, SendAcquire)) == s2;
    HandedAfterAcquire(s2);
  }

  lemma HandedAfterAcquire(s2: State)
    requires s2 == Init(TwoMessages()).(routes := [Route(1, true, {}, Waiting(0))], commands := [Acquire("k", 0)])
    requires Reachable(TwoMessages(), s2)
    ensures Reachable(TwoMessages(), Handed())
  {
    var c := TwoMessages();
    ReachableStep(c, s2, HandleCommand);
    var s3 := Handed().(routes := [Route(1, true, {}, Granted(0, 1))], workers := map[1 := Worker("k", Serving, [], None)]);
    assert Apply(c, s2, HandleCommand) == s3 by {
      assert Grant(s2.routes, [0], 1) == s3.routes;
    }
    ReachableStep(c, s3, OfRoute(0, ReceiveSender));
    var s4 := s3.(routes := [Route(1, true, {}, Sending(0, 1))]);
    assert Apply(c, s3, OfRoute(0, ReceiveSender)) == s4;
    HandedAfterSend(s4);
  }

  lemma HandedAfterSend(s4: State)
    requires s4 == Handed().(routes := [Route(1, true, {}, Sending(0, 1))],
                             workers := map[1 := Worker("k", Serving, [], None)])
    requires Reachable(TwoMessages(), s4)
    ensures Reachable(TwoMessages(), Handed())
  {
    var c := TwoMessages();
    ReachableStep(c, s4, OfRoute(0, Send));
    var t := Apply(c, s4, OfRoute(0, Send));
    assert t.workers[1].queue == [Job(0, 0)];
    assert t.workers == Handed().workers;
    var route: Route := Route(1, true, {0}, Polling);
    assert t.routes[0] == route by {
      assert {} + {0} == {0};
    }
    assert t.routes == [route];
  }

  lemma TwoMessagesProcessed()
    ensures Processes(TwoMessages(), 0, NO_TARGETS, [FINE, FINE])
  {
  }

  /** The second message is settled, the first has not been started. */
  function Overtaken(): State {
    Handed().(routes := [Route(2, true, {0}, Inline(1, 1))], log := [Event(Job(0, 1), Settled(Reject))])
  }

  lemma OvertakenIsReachable()
    ensures Reachable(TwoMessages(), Overtaken())
  {
    var c, s5 := TwoMessages(), Handed();
    HandedIsReachable();
    ReachableStep(c, s5, OfRoute(0, Take));
    var s6 := s5.(routes := [Route(2, true, {0}, Inline(1, 0))]);
    assert Apply(c, s5, OfRoute(0, Take)) == s6;
    ReachableStep(c, s6, OfRoute(0, EmitInline));
    assert Apply(c, s6, OfRoute(0, EmitInline)) == Overtaken();
  }

  /** A resolution failure is settled inline and can overtake a queued job: although nothing
      panics, the events of the route as a whole are not a prefix of what the sequential loop
      emits. `PartitionOvertaking.WholeRouteOrder` says exactly when they are. */
  lemma ResolutionFailureOvertakes()
    ensures exists c, s, b, outcomes ::
              && Reachable(c, s) && PanicFree(s) && Processes(c, 0, b, outcomes)
              && !(RouteLog(s.log, 0) <= AsEvents(0, LoopLog(b, outcomes, |outcomes|)))
  {
    var s, e := Overtaken(), Event(Job(0, 1), Settled(Reject));
    OvertakenIsReachable();
    TwoMessagesProcessed();
    assert RouteLog([e], 0) == [e] by {
      assert [e][..0] == [];
    }
    OvertakenLoop();
    assert PanicFree(s);
  }

  lemma OvertakenLoop()
    ensures var events := AsEvents(0, LoopLog(NO_TARGETS, [FINE, FINE], 2));
            events != [] && events[0] == Event(Job(0, 0), Handled(true))
  {
    var scripts := ScriptsOf(NO_TARGETS, [FINE, FINE]);
    assert OneByOne(scripts, 1) == Tag(0, scripts[0]);
    assert OneByOne(scripts, 2) == Tag(0, scripts[0]) + Tag(1, scripts[1]);
  }

  /** The completion of a panicking job fires although its message is never settled. */
  lemma PanickedJobCompletesUnsettled()
    ensures exists c, s, job ::
              Reachable(c, s) && job in s.completions && CountSettled(JobEffects(s.log, job)) == 0
  {
    var c, s5, job := TwoMessages(), Handed(), Job(0, 0);
    HandedIsReachable();
    ReachableStep(c, s5, OfWorker(1, Start));
    var s6 := s5.(workers := map[1 := Worker("k", Serving, [], Some(Progress(job, 0)))],
                  runs := map["k" := [Run(job, 0, Unfinished)]]);
    var t := Apply(c, s5, OfWorker(1, Start));
    assert t.workers[1].queue == [] && t.runs["k"] == [Run(job, 0, Unfinished)];
    assert t.workers == s6.workers && t.runs == s6.runs;
    ReachableStep(c, s6, OfWorker(1, Panic));
    var s7 := Apply(c, s6, OfWorker(1, Panic));
    assert job in s7.completions && s7.log == [];
  }
}
