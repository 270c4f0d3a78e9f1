/** How calls end, told from what happened: each phase of a call belongs to an event of that call, and
    an answered call holds the first reply to it. */
module ReplyCalls {
  import opened Options
  import opened ReplyDispatch

  // ---------- what the events say ----------

  /** The correlation identifier with which a call began. */
  function IdOf(events: seq<Event>, call: nat): Option<string> {
    if events == [] then None
    else
      var before, last := IdOf(events[..|events| - 1], call), events[|events| - 1];
      if before.None? && last.Begin? && last.call == call then Some(last.id) else before
  }

  /** The call gave up: its request could not be sent, or it timed out. */
  predicate Cancels(e: Event) {
    (e.DispatchRequest? && !e.ok) || e.TimeOut?
  }

  /** The command channel: registrations as calls begin, cancellations as calls give up, while fewer
      than 64 commands are queued. */
  function Sent(events: seq<Event>): seq<Command> {
    if events == [] then []
    else
      var front, last := events[..|events| - 1], events[|events| - 1];
      var queue := Sent(front);
      if last.Begin? then queue + [Register(last.id, last.call)]
      else if last.TakeCommand? then (if queue == [] then [] else queue[1..])
      else if last.Stop? then []
      else if Cancels(last) && IdOf(front, last.call).Some? && Stop !in front && |queue| < 64
      then queue + [Cancel(IdOf(front, last.call).value)] else queue
  }

  /** The dispatcher has taken the call's registration. */
  predicate Registered(events: seq<Event>, call: nat) {
    events != [] &&
      var front, last := events[..|events| - 1], events[|events| - 1];
      || Registered(front, call)
      || (last.TakeCommand? && Sent(front) != [] && Sent(front)[0].Register? && Sent(front)[0].call == call)
  }

  /** The first message with the call's identifier that arrived after its registration was taken. */
  function FirstReply(events: seq<Event>, call: nat): Option<Reply> {
    if events == [] then None
    else
      var front, last := events[..|events| - 1], events[|events| - 1];
      var before := FirstReply(front, call);
      if before.None? && last.Arrive? && Registered(front, call)
         && IdOf(front, call).Some? && last.message.correlation == IdOf(front, call)
      then Some(last.message) else before
  }

  /** Something has ended the call. */
  predicate Ended(events: seq<Event>, call: nat) {
    || ReadReply(call) in events || Abandon(call) in events || TimeOut(call) in events
    || DispatchRequest(call, false) in events || HearStop(call) in events
  }

  /** Every phase stands for what happened to the call, and for nothing else. */
  ghost predicate PhaseIs(events: seq<Event>, call: nat, phase: Phase) {
    && (phase.Answered? <==> ReadReply(call) in events)
    && (phase.Abandoned? <==> Abandon(call) in events)
    && (phase.TimedOut? <==> TimeOut(call) in events)
    && (phase.Failed? <==> DispatchRequest(call, false) in events)
    && (phase.Unanswerable? <==> HearStop(call) in events)
    && (phase.Dispatched? <==> DispatchRequest(call, true) in events && !Ended(events, call))
    && (phase.Confirmed? <==>
          Registered(events, call) && DispatchRequest(call, true) !in events && !Ended(events, call))
    && (phase.Dispatched? || phase.Answered? ==> Registered(events, call))
  }

  ghost predicate CallIs(events: seq<Event>, calls: map<nat, Call>, call: nat) {
    && (call in calls <==> IdOf(events, call).Some?)
    && (call in calls ==> Some(calls[call].id) == IdOf(events, call) && PhaseIs(events, call, calls[call].phase))
    && (call !in calls ==> !Ended(events, call) && DispatchRequest(call, true) !in events && !Registered(events, call))
  }

  ghost predicate History(events: seq<Event>, w: World) {
    && w.queue == Sent(events) && (w.alive <==> Stop !in events)
    && forall call: nat :: CallIs(events, w.calls, call)
  }

  // ---------- one step ----------

  /** What the last event adds. */
  lemma Adds(events: seq<Event>, call: nat)
    requires events != []
    ensures var front, last := events[..|events| - 1], events[|events| - 1];
            && (ReadReply(call) in events <==> ReadReply(call) in front || last == ReadReply(call))
            && (Abandon(call) in events <==> Abandon(call) in front || last == Abandon(call))
            && (TimeOut(call) in events <==> TimeOut(call) in front || last == TimeOut(call))
            && (HearStop(call) in events <==> HearStop(call) in front || last == HearStop(call))
            && (DispatchRequest(call, false) in events <==> DispatchRequest(call, false) in front || last == DispatchRequest(call, false))
            && (DispatchRequest(call, true) in events <==> DispatchRequest(call, true) in front || last == DispatchRequest(call, true))
  {
  }

  /** A step that is not about the call. */
  predicate Elsewhere(e: Event, call: nat) {
    match e
    case Begin(c, _) => c != call
    case DispatchRequest(c, _) => c != call
    case ReadReply(c) => c != call
    case TimeOut(c) => c != call
    case Abandon(c) => c != call
    case HearStop(c) => c != call
    case _ => true
  }

  lemma {:induction false} CallElsewhere(events: seq<Event>, w: World, v: World, call: nat)
    requires events != [] && Elsewhere(events[|events| - 1], call) && CallIs(events[..|events| - 1], w.calls, call)
    requires call in w.calls <==> call in v.calls
    requires call in w.calls ==> v.calls[call].id == w.calls[call].id
    requires if call in w.calls && w.calls[call].phase.Queued? && Registered(events, call)
             then v.calls[call].phase.Confirmed?
             else call in w.calls ==> v.calls[call].phase == w.calls[call].phase
    requires call !in w.calls ==> !Registered(events, call)
    ensures CallIs(events, v.calls, call)
  {
    Adds(events, call);
  }

  lemma CallHere(events: seq<Event>, w: World, v: World, call: nat)
    requires events != [] && !Elsewhere(events[|events| - 1], call) && CallIs(events[..|events| - 1], w.calls, call)
    requires Enabled(w, events[|events| - 1]) && v == Apply(w, events[|events| - 1])
    ensures CallIs(events, v.calls, call)
  {
    Adds(events, call);
  }

  /** A call whose registration was taken is no longer queued. */
  lemma {:induction false} QueuedIsUnregistered(events: seq<Event>, calls: map<nat, Call>, call: nat)
    requires CallIs(events, calls, call) && call in calls && calls[call].phase.Queued?
    ensures !Registered(events, call)
  {
  }

  lemma TakenElsewhere(events: seq<Event>, w: World, v: World, call: nat)
    requires events != [] && events[|events| - 1] == TakeCommand && History(events[..|events| - 1], w)
    requires Inv(w) && Enabled(w, TakeCommand) && v == TakeFirst(w)
    ensures CallIs(events, v.calls, call)
  {
    var front := events[..|events| - 1];
    assert CallIs(front, w.calls, call) && Sent(front) == w.queue;
    assert CommandOk(w.queue[0], w.table.pending, w.calls);
    if call in w.calls && w.calls[call].phase.Queued? {
      QueuedIsUnregistered(front, w.calls, call);
    }
    CallElsewhere(events, w, v, call);
  }

  lemma OthersElsewhere(events: seq<Event>, w: World, v: World, call: nat)
    requires events != [] && Elsewhere(events[|events| - 1], call) && events[|events| - 1] != TakeCommand
    requires CallIs(events[..|events| - 1], w.calls, call)
    requires Enabled(w, events[|events| - 1]) && v == Apply(w, events[|events| - 1])
    ensures CallIs(events, v.calls, call)
  {
    var front := events[..|events| - 1];
    assert Registered(events, call) == Registered(front, call);
    if call in w.calls && w.calls[call].phase.Queued? {
      QueuedIsUnregistered(front, w.calls, call);
    }
    CallElsewhere(events, w, v, call);
  }

  lemma {:induction false} ChannelStep(events: seq<Event>, w: World, v: World)
    requires events != [] && History(events[..|events| - 1], w)
    requires Enabled(w, events[|events| - 1]) && v == Apply(w, events[|events| - 1])
    ensures v.queue == Sent(events) && (v.alive <==> Stop !in events)
  {
    var front, last := events[..|events| - 1], events[|events| - 1];
    assert Stop in events <==> Stop in front || last == Stop;
    if Cancels(last) {
      assert CallIs(front, w.calls, last.call);
      CancelIsSent(w, last);
    }
  }

  lemma CancelIsSent(w: World, e: Event)
    requires Cancels(e) && Enabled(w, e)
    ensures e.call in w.calls && Apply(w, e).alive == w.alive
    ensures Apply(w, e).queue == if w.alive && |w.queue| < 64 then w.queue + [Cancel(w.calls[e.call].id)] else w.queue
  {
  }

  lemma HistoryStep(events: seq<Event>, w: World, v: World)
    requires events != [] && History(events[..|events| - 1], w)
    requires Inv(w) && Enabled(w, events[|events| - 1]) && v == Apply(w, events[|events| - 1])
    ensures History(events, v)
  {
    var front, last := events[..|events| - 1], events[|events| - 1];
    ChannelStep(events, w, v);
    forall call: nat ensures CallIs(events, v.calls, call) {
      assert CallIs(front, w.calls, call);
      if !Elsewhere(last, call) {
        CallHere(events, w, v, call);
      } else if last == TakeCommand {
        TakenElsewhere(events, w, v, call);
      } else {
        OthersElsewhere(events, w, v, call);
      }
    }
  }

  // ---------- whole runs ----------

  /** In every run the command channel, the identifier of every call and its phase are what the events
      say: a call is answered exactly when its reply was read, has failed exactly when its request
      could not be sent, and so on. */
  lemma {:induction false} PhasesAreEvents(events: seq<Event>)
    requires Legal(Start(), events)
    ensures History(events, Run(Start(), events))
  {
    if events != [] {
      var front := events[..|events| - 1];
      PhasesAreEvents(front);
      RunKeeps(front);
      HistoryStep(events, Run(Start(), front), Run(Start(), events));
    }
  }

  /** The call has not been ended, or has been answered: it has what arrived for it. */
  ghost predicate ReplyIs(events: seq<Event>, calls: map<nat, Call>, call: nat) {
    call in calls && (Waits(calls[call]) || calls[call].phase.Answered?) ==>
      calls[call].reply == FirstReply(events, call)
  }

  /** The entry of a waiting call is there exactly between its registration and its reply. */
  lemma {:induction false} EntryWhileWaiting(front: seq<Event>, w: World, call: nat)
    requires Inv(w) && w.alive && CallIs(front, w.calls, call) && call in w.calls && Waits(w.calls[call])
    ensures w.calls[call].id in w.table.pending <==> Registered(front, call) && w.calls[call].reply.None?
  {
    assert CallOk(call, w.calls[call], w.table.pending, w.queue, w.alive);
    if w.calls[call].phase.Queued? {
      QueuedIsUnregistered(front, w.calls, call);
      QueuedIsNotThere(w, call);
    } else if w.calls[call].reply.Some? {
      assert Given(call, w.calls[call].reply.value) in w.table.given;
    }
  }

  lemma QueuedIsNotThere(w: World, call: nat)
    requires Inv(w) && w.alive && call in w.calls && w.calls[call].phase.Queued?
    ensures w.calls[call].id !in w.table.pending
  {
    assert CallOk(call, w.calls[call], w.table.pending, w.queue, w.alive);
    var i :| 0 <= i < |w.queue| && w.queue[i] == Register(w.calls[call].id, call);
    assert CommandOk(w.queue[i], w.table.pending, w.calls);
  }

  lemma AnsweredHasReply(w: World, call: nat)
    requires Inv(w) && call in w.calls && w.calls[call].phase.Answered?
    ensures w.calls[call].reply.Some? && w.calls[call].id !in w.table.pending
  {
    assert CallOk(call, w.calls[call], w.table.pending, w.queue, w.alive);
    assert Given(call, w.calls[call].reply.value) in w.table.given;
  }

  /** A message reaches the call whose entry it finds, if that still waits, and no other call. */
  lemma ArrivesAt(w: World, message: Reply, call: nat)
    requires PendingOk(w.table.pending, w.calls) && IdsOk(w.calls) && call in w.calls
    ensures var calls := ArriveReply(w, message).calls;
            call in calls && calls[call] ==
              if Waits(w.calls[call]) && message.correlation == Some(w.calls[call].id) && w.calls[call].id in w.table.pending
              then w.calls[call].(reply := Some(message)) else w.calls[call]
  {
  }

  lemma ReplyArrives(events: seq<Event>, w: World, message: Reply, call: nat)
    requires events != [] && events[|events| - 1] == Arrive(message) && w.alive && Inv(w) && call in w.calls
    requires CallIs(events[..|events| - 1], w.calls, call) && ReplyIs(events[..|events| - 1], w.calls, call)
    ensures ReplyIs(events, ArriveReply(w, message).calls, call)
  {
    ArrivesAt(w, message, call);
    if Waits(w.calls[call]) {
      EntryWhileWaiting(events[..|events| - 1], w, call);
    } else if w.calls[call].phase.Answered? {
      AnsweredHasReply(w, call);
    }
  }

  /** No other step gives a call a reply, or takes one away. */
  lemma RepliesStay(w: World, e: Event, call: nat)
    requires Enabled(w, e) && !e.Arrive? && call in Apply(w, e).calls
    ensures var calls := Apply(w, e).calls;
            if call in w.calls then calls[call].reply == w.calls[call].reply
                 && (Waits(calls[call]) || calls[call].phase.Answered? ==> Waits(w.calls[call]) || w.calls[call].phase.Answered?)
            else calls[call].reply.None?
  {
  }

  lemma {:induction false} NobodyReplies(events: seq<Event>, call: nat)
    requires IdOf(events, call).None?
    ensures FirstReply(events, call).None?
  {
    if events != [] {
      NobodyReplies(events[..|events| - 1], call);
    }
  }

  lemma ReplyStep(events: seq<Event>, w: World, v: World, call: nat)
    requires events != [] && Inv(w) && Enabled(w, events[|events| - 1]) && v == Apply(w, events[|events| - 1])
    requires CallIs(events[..|events| - 1], w.calls, call) && ReplyIs(events[..|events| - 1], w.calls, call)
    ensures ReplyIs(events, v.calls, call)
  {
    var front, last := events[..|events| - 1], events[|events| - 1];
    if last.Arrive? {
      if call in w.calls {
        ReplyArrives(events, w, last.message, call);
      }
    } else if call in v.calls {
      RepliesStay(w, last, call);
      if call !in w.calls {
        NobodyReplies(front, call);
      }
    }
  }

  /** In every run: a call is answered exactly when its reply was read, and then it holds the first
      message with its identifier that arrived after its registration was taken; so does a call that
      still waits. */
  lemma {:induction false} AnsweredWithFirstReply(events: seq<Event>, call: nat)
    requires Legal(Start(), events)
    ensures ReplyIs(events, Run(Start(), events).calls, call)
    ensures var calls := Run(Start(), events).calls;
            ReadReply(call) in events <==> call in calls && calls[call].phase.Answered?
    ensures var calls := Run(Start(), events).calls;
            ReadReply(call) in events ==> FirstReply(events, call).Some? && calls[call].reply == FirstReply(events, call)
  {
    PhasesAreEvents(events);
    RunKeeps(events);
    assert CallIs(events, Run(Start(), events).calls, call);
    if events != [] {
      var front := events[..|events| - 1];
      AnsweredWithFirstReply(front, call);
      PhasesAreEvents(front);
      RunKeeps(front);
      assert CallIs(front, Run(Start(), front).calls, call);
      ReplyStep(events, Run(Start(), front), Run(Start(), events), call);
    }
    if ReadReply(call) in events {
      AnsweredHasReply(Run(Start(), events), call);
    }
  }

  /** A call for which a reply arrived in time neither times out nor hears the dispatcher stop. */
  lemma {:induction false} NoTimeoutAfterReply(events: seq<Event>, k: nat, call: nat)
    requires Legal(Start(), events) && k < |events| && events[k] in {TimeOut(call), HearStop(call)}
    ensures FirstReply(events[..k], call).None?
    decreases |events|
  {
    var front := events[..|events| - 1];
    if k < |front| {
      assert front[..k] == events[..k];
      NoTimeoutAfterReply(front, k, call);
    } else {
      AnsweredWithFirstReply(front, call);
    }
  }

  // ---------- a call that goes well ----------

  lemma {:induction false} Then(events: seq<Event>, e: Event)
    requires Legal(Start(), events) && Enabled(Run(Start(), events), e)
    ensures Legal(Start(), events + [e]) && Run(Start(), events + [e]) == Apply(Run(Start(), events), e)
  {
  }

  lemma {:induction false} FreshCallCanBegin(events: seq<Event>, call: nat, id: string)
    requires Legal(Start(), events) && Stop !in events && Sent(events) == []
    requires IdOf(events, call).None? && forall c: nat :: IdOf(events, c) != Some(id)
    ensures var w := Run(Start(), events); Enabled(w, Begin(call, id)) && w.queue == []
  {
    PhasesAreEvents(events);
    var w := Run(Start(), events);
    assert CallIs(events, w.calls, call);
    forall c | c in w.calls ensures w.calls[c].id != id {
      assert CallIs(events, w.calls, c);
    }
  }

  /** Whenever the dispatcher runs and its channel is empty, a new call can be registered, sent and
      answered: its reply comes back to it. */
  lemma {:induction false} CallsCanBeAnswered(events: seq<Event>, call: nat, message: Reply)
    requires Legal(Start(), events) && Stop !in events && Sent(events) == []
    requires IdOf(events, call).None? && message.correlation.Some?
    requires forall c: nat :: IdOf(events, c) != message.correlation
    ensures var more := events + [Begin(call, message.correlation.value)] + [TakeCommand] + [DispatchRequest(call, true)]
                        + [Arrive(message)] + [ReadReply(call)];
            var calls := Run(Start(), more).calls;
            Legal(Start(), more) && call in calls && calls[call] == Call(message.correlation.value, Answered, Some(message))
  {
    var id := message.correlation.value;
    FreshCallCanBegin(events, call, id);
    var a := events + [Begin(call, id)];
    Then(events, Begin(call, id));
    Then(a, TakeCommand);
    var b := a + [TakeCommand];
    Then(b, DispatchRequest(call, true));
    Then(b + [DispatchRequest(call, true)], Arrive(message));
    Then(b + [DispatchRequest(call, true)] + [Arrive(message)], ReadReply(call));
  }
}
