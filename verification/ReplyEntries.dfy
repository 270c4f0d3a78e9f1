/** Exactly which calls the dispatcher still holds an entry for, and when a call that gave up leaves
    one behind. */
module ReplyEntries {
  import opened Options
  import opened ReplyDispatch

  predicate GaveUp(p: Phase) {
    p.Failed? || p.TimedOut?
  }

  /** A reply has been handed to the call. */
  ghost predicate Handed(given: seq<Given>, call: nat) {
    exists i :: 0 <= i < |given| && given[i].call == call
  }

  /** The call's registration has been taken, no reply has been handed to it, and if it gave up its
      cancellation is still queued or was lost. */
  ghost predicate Stays(call: nat, c: Call, queue: seq<Command>, given: seq<Given>, lost: set<string>) {
    && Register(c.id, call) !in queue && !Handed(given, call)
    && (GaveUp(c.phase) ==> Cancel(c.id) in queue || c.id in lost)
  }

  ghost predicate OneCancelEach(queue: seq<Command>) {
    forall i, j :: 0 <= i < j < |queue| && queue[i].Cancel? && queue[j].Cancel? ==> queue[i].id != queue[j].id
  }

  /** What was lost is not queued, and belongs to a call that gave up. */
  ghost predicate LostOk(lost: set<string>, queue: seq<Command>, calls: map<nat, Call>) {
    forall id :: id in lost ==> Cancel(id) !in queue && CancelOk(id, calls)
  }

  ghost predicate AllStay(calls: map<nat, Call>, pending: map<string, nat>, queue: seq<Command>, given: seq<Given>,
                          lost: set<string>) {
    forall call :: call in calls ==> (calls[call].id in pending <==> Stays(call, calls[call], queue, given, lost))
  }

  ghost predicate Exact(w: World) {
    w.alive ==>
      && AllStay(w.calls, w.table.pending, w.queue, w.table.given, w.lost)
      && OneCancelEach(w.queue) && LostOk(w.lost, w.queue, w.calls)
  }

  // ---------- the steps ----------

  lemma BeginExact(w: World, call: nat, id: string)
    requires Inv(w) && Exact(w) && Enabled(w, Begin(call, id))
    ensures Exact(Apply(w, Begin(call, id)))
  {
    var v := Apply(w, Begin(call, id));
    assert v.queue[|w.queue|] == Register(id, call);
    forall c | c in v.calls
      ensures v.calls[c].id in v.table.pending <==> Stays(c, v.calls[c], v.queue, v.table.given, v.lost)
    {
      if c != call {
        assert v.calls[c] == w.calls[c];
      }
    }
    SamePhases(w.calls, v.calls, w.lost);
  }

  /** Taking a command that concerns another call. */
  lemma TailStays(queue: seq<Command>, call: nat, c: Call, given: seq<Given>, lost: set<string>)
    requires queue != [] && queue[0] != Register(c.id, call) && queue[0] != Cancel(c.id)
    ensures Stays(call, c, queue[1..], given, lost) <==> Stays(call, c, queue, given, lost)
  {
    assert queue == [queue[0]] + queue[1..];
  }

  lemma RegisterStays(w: World, id: string, call: nat, c: nat)
    requires Inv(w) && Exact(w) && w.alive && w.queue != [] && w.queue[0] == Register(id, call) && c in w.calls
    ensures var v := TakeFirst(w);
            c in v.calls && (v.calls[c].id in v.table.pending <==> Stays(c, v.calls[c], v.queue, v.table.given, v.lost))
  {
    RegisterTaken(w, id, call);
    assert Stays(c, w.calls[c], w.queue, w.table.given, w.lost) <==> w.calls[c].id in w.table.pending;
    if c != call {
      TailStays(w.queue, c, w.calls[c], w.table.given, w.lost);
    }
  }

  lemma RegisterExact(w: World, id: string, call: nat)
    requires Inv(w) && Exact(w) && w.alive && w.queue != [] && w.queue[0] == Register(id, call)
    ensures Exact(TakeFirst(w))
  {
    var v := TakeFirst(w);
    RegisterLosesNothing(w, id, call);
    forall c | c in v.calls
      ensures v.calls[c].id in v.table.pending <==> Stays(c, v.calls[c], v.queue, v.table.given, v.lost)
    {
      RegisterStays(w, id, call, c);
    }
  }

  lemma RegisterLosesNothing(w: World, id: string, call: nat)
    requires Inv(w) && Exact(w) && w.alive && w.queue != [] && w.queue[0] == Register(id, call)
    ensures var v := TakeFirst(w); v.calls.Keys == w.calls.Keys && OneCancelEach(v.queue) && LostOk(v.lost, v.queue, v.calls)
  {
    var v := TakeFirst(w);
    RegisterTaken(w, id, call);
    assert w.queue == [w.queue[0]] + v.queue;
    SamePhases(w.calls, v.calls, w.lost);
  }

  lemma CancelExact(w: World, id: string)
    requires Inv(w) && Exact(w) && w.alive && w.queue != [] && w.queue[0] == Cancel(id)
    ensures Exact(TakeFirst(w))
  {
    var v := TakeFirst(w);
    assert w.queue == [w.queue[0]] + v.queue;
    assert CancelOk(w.queue[0].id, w.calls);
    forall c | c in v.calls
      ensures v.calls[c].id in v.table.pending <==> Stays(c, v.calls[c], v.queue, v.table.given, v.lost)
    {
      assert Stays(c, w.calls[c], w.queue, w.table.given, w.lost) <==> w.calls[c].id in w.table.pending;
    }
  }

  lemma HandedGrows(given: seq<Given>, last: Given, c: nat)
    ensures Handed(given + [last], c) <==> Handed(given, c) || last.call == c
  {
    var all := given + [last];
    assert all[|given|] == last;
    if Handed(given, c) {
      var i :| 0 <= i < |given| && given[i].call == c;
      assert all[i].call == c;
    }
  }

  lemma ArriveExact(w: World, message: Reply)
    requires Inv(w) && Exact(w) && w.alive && Finds(w.table.pending, message)
    ensures Exact(ArriveReply(w, message))
  {
    var v, id := ArriveReply(w, message), message.correlation.value;
    var call := w.table.pending[id];
    assert v.table.given == w.table.given + [Given(call, message)];
    forall c | c in v.calls
      ensures v.calls[c].id in v.table.pending <==> Stays(c, v.calls[c], v.queue, v.table.given, v.lost)
    {
      assert Stays(c, w.calls[c], w.queue, w.table.given, w.lost) <==> w.calls[c].id in w.table.pending;
      HandedGrows(w.table.given, Given(call, message), c);
    }
    SamePhases(w.calls, v.calls, w.lost);
  }

  lemma SamePhases(calls: map<nat, Call>, after: map<nat, Call>, ids: set<string>)
    requires forall id :: id in ids ==> CancelOk(id, calls)
    requires forall c :: c in calls ==> c in after && after[c].id == calls[c].id && (GaveUp(calls[c].phase) ==> GaveUp(after[c].phase))
    ensures forall id :: id in ids ==> CancelOk(id, after)
  {
    forall id | id in ids ensures CancelOk(id, after) {
      assert CancelOk(id, calls);
      var c :| c in calls && calls[c].id == id && (calls[c].phase.Failed? || calls[c].phase.TimedOut?);
      assert c in after && after[c].id == id;
    }
  }

  lemma GoesOnExact(w: World, call: nat, phase: Phase)
    requires Inv(w) && Exact(w) && GoesOn(w, call, phase) && !GaveUp(phase)
    ensures Exact(Moved(w, call, phase))
  {
    var v := Moved(w, call, phase);
    if w.alive {
      forall c | c in v.calls
        ensures v.calls[c].id in v.table.pending <==> Stays(c, v.calls[c], v.queue, v.table.given, v.lost)
      {
        assert Stays(c, w.calls[c], w.queue, w.table.given, w.lost) <==> w.calls[c].id in w.table.pending;
      }
      SamePhases(w.calls, v.calls, w.lost);
    }
  }

  /** A call that gives up now has no cancellation yet. */
  lemma NotCancelledYet(w: World, call: nat)
    requires Inv(w) && Exact(w) && w.alive && call in w.calls && !GaveUp(w.calls[call].phase)
    ensures Cancel(w.calls[call].id) !in w.queue && w.calls[call].id !in w.lost
  {
    assert !CancelOk(w.calls[call].id, w.calls);
  }

  lemma GivesUpStays(w: World, call: nat, phase: Phase, c: nat)
    requires Inv(w) && Exact(w) && w.alive && GoesOn(w, call, phase) && GaveUp(phase) && c in w.calls
    ensures var v := TryCancel(Moved(w, call, phase), w.calls[call].id);
            c in v.calls && (v.calls[c].id in v.table.pending <==> Stays(c, v.calls[c], v.queue, v.table.given, v.lost))
  {
    var v := TryCancel(Moved(w, call, phase), w.calls[call].id);
    NotCancelledYet(w, call);
    if |w.queue| < COMMAND_BUFFER {
      assert v.queue[|w.queue|] == Cancel(w.calls[call].id);
    }
    assert Stays(c, w.calls[c], w.queue, w.table.given, w.lost) <==> w.calls[c].id in w.table.pending;
    assert c != call ==> v.calls[c] == w.calls[c] && v.calls[c].id != w.calls[call].id;
  }

  lemma GivesUpExact(w: World, call: nat, phase: Phase)
    requires Inv(w) && Exact(w) && w.alive && GoesOn(w, call, phase) && GaveUp(phase)
    ensures Exact(TryCancel(Moved(w, call, phase), w.calls[call].id))
    ensures w.calls[call].id !in w.lost
    ensures w.calls[call].id in TryCancel(Moved(w, call, phase), w.calls[call].id).lost <==> |w.queue| == COMMAND_BUFFER
  {
    var id, v := w.calls[call].id, TryCancel(Moved(w, call, phase), w.calls[call].id);
    NotCancelledYet(w, call);
    GivesUpQueue(w, call, phase);
    forall c | c in v.calls
      ensures v.calls[c].id in v.table.pending <==> Stays(c, v.calls[c], v.queue, v.table.given, v.lost)
    {
      GivesUpStays(w, call, phase, c);
    }
  }

  /** The cancellation is queued, or lost. */
  lemma GivesUpQueue(w: World, call: nat, phase: Phase)
    requires Inv(w) && Exact(w) && w.alive && GoesOn(w, call, phase) && GaveUp(phase)
    ensures var v := TryCancel(Moved(w, call, phase), w.calls[call].id);
            OneCancelEach(v.queue) && LostOk(v.lost, v.queue, v.calls)
  {
    var id, v := w.calls[call].id, TryCancel(Moved(w, call, phase), w.calls[call].id);
    NotCancelledYet(w, call);
    SamePhases(w.calls, v.calls, w.lost);
    assert v.calls[call].id == id && GaveUp(v.calls[call].phase);
    assert CancelOk(id, v.calls);
  }

  lemma StepExact(w: World, e: Event)
    requires Inv(w) && Exact(w) && Enabled(w, e)
    ensures Exact(Apply(w, e))
  {
    match e {
      case Begin(call, id) => BeginExact(w, call, id);
      case TakeCommand =>
        match w.queue[0] {
          case Register(id, call) => RegisterExact(w, id, call);
          case Cancel(id) => CancelExact(w, id);
        }
      case Arrive(message) => if Finds(w.table.pending, message) { ArriveExact(w, message); }
      case DispatchRequest(call, ok) =>
        if ok { GoesOnExact(w, call, Dispatched); } else if w.alive { GivesUpExact(w, call, Failed); }
      case ReadReply(call) => GoesOnExact(w, call, Answered);
      case TimeOut(call) => GivesUpExact(w, call, TimedOut);
      case Abandon(call) => GoesOnExact(w, call, Abandoned);
      case Stop =>
      case HearStop(call) => GoesOnExact(w, call, Unanswerable);
    }
  }

  lemma {:induction false} RunExact(events: seq<Event>)
    requires Legal(Start(), events)
    ensures Inv(Run(Start(), events)) && Exact(Run(Start(), events))
  {
    RunKeeps(events);
    if events != [] {
      var front := events[..|events| - 1];
      RunExact(front);
      StepExact(Run(Start(), front), events[|events| - 1]);
    }
  }

  // ---------- whole runs ----------

  /** While the dispatcher runs, it holds an entry for a call exactly when the call's registration
      was taken, no reply was handed to it, and, if it gave up, its cancellation is still queued or
      was lost. Every entry is that of the call with its correlation id. */
  lemma {:induction false} EntriesAccounted(events: seq<Event>, call: nat)
    requires Legal(Start(), events) && Run(Start(), events).alive && call in Run(Start(), events).calls
    ensures var w := Run(Start(), events); var c := w.calls[call];
            && (c.id in w.table.pending <==> Stays(call, c, w.queue, w.table.given, w.lost))
            && (c.id in w.table.pending ==> w.table.pending[c.id] == call && EntryOk(c.id, c, w.queue, w.lost))
            && (c.id in w.lost ==> GaveUp(c.phase) && Cancel(c.id) !in w.queue)
    ensures var w := Run(Start(), events);
            forall id :: id in w.table.pending ==> w.table.pending[id] in w.calls && w.calls[w.table.pending[id]].id == id
  {
    RunExact(events);
    var w := Run(Start(), events);
    if w.calls[call].id in w.lost {
      assert CancelOk(w.calls[call].id, w.calls);
    }
  }

  /** The call gives up at this step. */
  predicate GivesUp(w: World, e: Event, call: nat) {
    (e == TimeOut(call) && w.alive) || e == DispatchRequest(call, false)
  }

  lemma GivesUpApart(w: World, other: nat, phase: Phase, call: nat)
    requires IdsOk(w.calls) && other in w.calls && call in w.calls && other != call
    ensures var v := TryCancel(Moved(w, other, phase), w.calls[other].id);
            call in v.calls && v.calls[call] == w.calls[call] && (w.calls[call].id in v.lost <==> w.calls[call].id in w.lost)
  {
  }

  lemma StaysGivenUp(w: World, e: Event, call: nat)
    requires Inv(w) && Enabled(w, e) && call in w.calls && GaveUp(w.calls[call].phase)
    ensures var v := Apply(w, e);
            && call in v.calls && v.calls[call].id == w.calls[call].id && GaveUp(v.calls[call].phase)
            && (v.calls[call].id in v.lost <==> w.calls[call].id in w.lost)
  {
    match e {
      case TakeCommand => if w.queue[0].Register? { assert CommandOk(w.queue[0], w.table.pending, w.calls); }
      case DispatchRequest(other, ok) => if !ok { GivesUpApart(w, other, Failed, call); }
      case TimeOut(other) => GivesUpApart(w, other, TimedOut, call);
      case _ =>
    }
  }

  lemma {:induction false} LostForGood(w: World, events: seq<Event>, call: nat)
    requires Inv(w) && Legal(w, events) && call in w.calls && GaveUp(w.calls[call].phase)
    ensures var v := Run(w, events);
            && Inv(v) && call in v.calls && v.calls[call].id == w.calls[call].id && GaveUp(v.calls[call].phase)
            && (v.calls[call].id in v.lost <==> w.calls[call].id in w.lost)
  {
    if events != [] {
      var front := events[..|events| - 1];
      LostForGood(w, front, call);
      StepKeeps(Run(w, front), events[|events| - 1]);
      StaysGivenUp(Run(w, front), events[|events| - 1], call);
    }
  }

  lemma {:induction false} ExactAfter(w: World, events: seq<Event>)
    requires Inv(w) && Exact(w) && Legal(w, events)
    ensures Inv(Run(w, events)) && Exact(Run(w, events))
  {
    if events != [] {
      var front := events[..|events| - 1];
      ExactAfter(w, front);
      StepKeeps(Run(w, front), events[|events| - 1]);
      StepExact(Run(w, front), events[|events| - 1]);
    }
  }

  /** When a call that gave up leaves its entry behind: once its cancellation is not on its way (any
      more), the entry is still there exactly if the command channel was full when the call gave up
      and no reply has been handed to it since. */
  lemma {:induction false} EntryLeftBehind(events: seq<Event>, e: Event, call: nat, more: seq<Event>)
    requires Legal(Start(), events) && Enabled(Run(Start(), events), e)
    requires Run(Start(), events).alive && GivesUp(Run(Start(), events), e, call)
    requires Legal(Apply(Run(Start(), events), e), more)
    ensures var w, v := Run(Start(), events), Run(Apply(Run(Start(), events), e), more);
            && call in v.calls
            && (v.alive && Cancel(v.calls[call].id) !in v.queue ==>
                 (v.calls[call].id in v.table.pending <==> |w.queue| == 64 && !Handed(v.table.given, call)))
  {
    var w := Run(Start(), events);
    var u := Apply(w, e);
    RunExact(events);
    GivesUpExact(w, call, if e.TimeOut? then TimedOut else Failed);
    StepKeeps(w, e);
    LostForGood(u, more, call);
    ExactAfter(u, more);
    var v := Run(u, more);
    if v.alive {
      NotRegistering(v, call);
    }
  }

  /** A call that gave up was registered. */
  lemma NotRegistering(v: World, call: nat)
    requires Inv(v) && call in v.calls && GaveUp(v.calls[call].phase)
    ensures Register(v.calls[call].id, call) !in v.queue
  {
    assert !CommandOk(Register(v.calls[call].id, call), v.table.pending, v.calls);
  }

  // ---------- a lost cancellation ----------

  lemma {:induction false} Then(events: seq<Event>, e: Event)
    requires Legal(Start(), events) && Enabled(Run(Start(), events), e)
    ensures Legal(Start(), events + [e]) && Run(Start(), events + [e]) == Apply(Run(Start(), events), e)
  {
  }

  function Name(n: nat): (name: string)
    ensures |name| == n
  {
    seq(n, _ => 'x')
  }

  /** `n` further calls that nobody has registered yet. */
  ghost predicate Crowded(w: World, n: nat) {
    && w.alive && |w.queue| == n && "" in w.table.pending && w.table.pending[""] == 0 && w.lost == {}
    && In(w, 0, Dispatched) && w.calls[0] == Call("", Dispatched, None)
    && (forall c :: c in w.calls ==> c <= n && |w.calls[c].id| == c)
    && (forall i :: 0 <= i < n ==> w.queue[i].Register? && w.queue[i].id != "")
  }

  lemma {:induction false} Crowd(n: nat) returns (events: seq<Event>)
    requires n <= COMMAND_BUFFER
    ensures Legal(Start(), events) && Crowded(Run(Start(), events), n)
  {
    if n == 0 {
      Then([], Begin(0, ""));
      Then([] + [Begin(0, "")], TakeCommand);
      Then([] + [Begin(0, "")] + [TakeCommand], DispatchRequest(0, true));
      events := [] + [Begin(0, "")] + [TakeCommand] + [DispatchRequest(0, true)];
    } else {
      var before := Crowd(n - 1);
      Then(before, Begin(n, Name(n)));
      events := before + [Begin(n, Name(n))];
    }
  }

  /** With a full command channel the cancellation of a call that timed out is lost, and its entry
      stays although nothing in the channel will remove it. */
  lemma LostCancellationLeavesEntry() returns (events: seq<Event>)
    ensures Legal(Start(), events)
    ensures var w := Run(Start(), events);
            && w.alive && In(w, 0, TimedOut) && w.calls[0].id == "" && "" in w.lost
            && "" in w.table.pending && Cancel("") !in w.queue
  {
    var before := Crowd(COMMAND_BUFFER);
    Then(before, TimeOut(0));
    events := before + [TimeOut(0)];
  }
}
