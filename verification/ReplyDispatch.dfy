/** Request and reply over a broker: the dispatcher's table of waiting calls. */
module ReplyDispatch {
  import opened Options

  const COMMAND_BUFFER: nat := 64

  datatype Reply = Reply(correlation: Option<string>, body: string)

  datatype Command = Register(id: string, call: nat) | Cancel(id: string)

  /** What wakes the dispatcher: a command or a message, or the end of one of its two inputs. */
  datatype Input = Commanded(command: Command) | Arrived(message: Reply) | CommandsEnd | MessagesEnd

  datatype Given = Given(call: nat, reply: Reply)

  /** The waiting calls by correlation id, and every reply handed to a call. */
  datatype Table = Table(pending: map<string, nat>, given: seq<Given>)

  function Without(pending: map<string, nat>, id: string): map<string, nat> {
    map x | x in pending && x != id :: pending[x]
  }

  predicate Finds(pending: map<string, nat>, message: Reply) {
    message.correlation.Some? && message.correlation.value in pending
  }

  function Handled(t: Table, input: Input): Table {
    match input
    case Commanded(Register(id, call)) => t.(pending := t.pending[id := call])
    case Commanded(Cancel(id)) => t.(pending := Without(t.pending, id))
    case Arrived(message) =>
      if Finds(t.pending, message)
      then Table(Without(t.pending, message.correlation.value), t.given + [Given(t.pending[message.correlation.value], message)])
      else t
    case _ => t
  }

  predicate Ending(input: Input) {
    input.CommandsEnd? || input.MessagesEnd?
  }

  /** The loop: inputs are handled until one of the two ends. */
  function HandledAll(t: Table, inputs: seq<Input>): Table
    decreases |inputs|
  {
    if inputs == [] || Ending(inputs[0]) then t else HandledAll(Handled(t, inputs[0]), inputs[1..])
  }

  /** What comes after the end of either input is not looked at. */
  lemma {:induction false} NothingAfterTheEnd(t: Table, inputs: seq<Input>, k: nat)
    requires k < |inputs| && inputs[k] in {CommandsEnd, MessagesEnd}
    ensures HandledAll(t, inputs) == HandledAll(t, inputs[..k])
    decreases k
  {
    if k > 0 && !Ending(inputs[0]) {
      assert inputs[..k][1..] == inputs[1..][..k - 1];
      NothingAfterTheEnd(Handled(t, inputs[0]), inputs[1..], k - 1);
    }
  }

  /** Until then every input is handled, in order. */
  lemma {:induction false} OneMoreInput(t: Table, inputs: seq<Input>, x: Input)
    requires forall i :: 0 <= i < |inputs| ==> inputs[i].Commanded? || inputs[i].Arrived?
    requires x.Commanded? || x.Arrived?
    ensures HandledAll(t, inputs + [x]) == Handled(HandledAll(t, inputs), x)
    decreases |inputs|
  {
    if inputs == [] {
      assert ([] + [x])[1..] == [];
    } else {
      assert (inputs + [x])[1..] == inputs[1..] + [x];
      OneMoreInput(Handled(t, inputs[0]), inputs[1..], x);
    }
  }

  /** The reply dispatcher of `BrokerProxy::initialize`. */
  class Dispatcher {
    var pending: map<string, nat>
    var given: seq<Given>

    ghost function Value(): Table
      reads this
    {
      Table(pending, given)
    }

    constructor ()
      ensures Value() == Table(map[], [])
    {
      pending, given := map[], [];
    }

    method Handle(input: Input)
      modifies this
      ensures Value() == Handled(old(Value()), input)
    {
      match input {
        case Commanded(Register(id, call)) => pending := pending[id := call];
        case Commanded(Cancel(id)) => pending := Without(pending, id);
        case Arrived(message) =>
          if message.correlation.Some? && message.correlation.value in pending {
            var call := pending[message.correlation.value];
            pending := Without(pending, message.correlation.value);
            given := given + [Given(call, message)];
          }
        case CommandsEnd =>
        case MessagesEnd =>
      }
    }

    method Loop(inputs: seq<Input>)
      modifies this
      ensures Value() == HandledAll(old(Value()), inputs)
    {
      var i := 0;
      while i < |inputs|
        invariant i <= |inputs|
        invariant HandledAll(Value(), inputs[i..]) == HandledAll(old(Value()), inputs)
      {
        if Ending(inputs[i]) {
          return;
        }
        assert inputs[i..][1..] == inputs[i + 1..];
        Handle(inputs[i]);
        i := i + 1;
      }
    }
  }

  // ---------- the calls around the dispatcher ----------

  /** Where `call_with_headers` is. `Abandoned`: its future was dropped. */
  datatype Phase = Queued | Confirmed | Dispatched | Answered | Failed | TimedOut | Abandoned | Unanswerable

  datatype Call = Call(id: string, phase: Phase, reply: Option<Reply>)

  /** The dispatcher, the calls, the bounded command channel, whether the dispatcher runs, and the
      cancellations that found the channel full. */
  datatype World = World(table: Table, calls: map<nat, Call>, queue: seq<Command>, alive: bool, lost: set<string>)

  datatype Event =
    | Begin(call: nat, id: string)
    | TakeCommand
    | Arrive(message: Reply)
    | DispatchRequest(call: nat, ok: bool)
    | ReadReply(call: nat)
    | TimeOut(call: nat)
    | Abandon(call: nat)
    | Stop
    | HearStop(call: nat)

  function Start(): World {
    World(Table(map[], []), map[], [], true, {})
  }

  predicate Waits(c: Call) {
    c.phase.Queued? || c.phase.Confirmed? || c.phase.Dispatched?
  }

  predicate In(w: World, call: nat, phase: Phase) {
    call in w.calls && w.calls[call].phase == phase
  }

  /** Correlation ids are new; a reply that is there is taken before the timeout is looked at. */
  ghost predicate Enabled(w: World, e: Event) {
    match e
    case Begin(call, id) =>
      w.alive && |w.queue| < COMMAND_BUFFER && call !in w.calls && forall c :: c in w.calls ==> w.calls[c].id != id
    case TakeCommand => w.alive && w.queue != []
    case Arrive(_) => w.alive
    case DispatchRequest(call, _) => In(w, call, Confirmed)
    case ReadReply(call) => In(w, call, Dispatched) && w.calls[call].reply.Some?
    case TimeOut(call) => w.alive && In(w, call, Dispatched) && w.calls[call].reply.None?
    case Abandon(call) => call in w.calls && Waits(w.calls[call])
    case Stop => w.alive
    case HearStop(call) => !w.alive && (In(w, call, Queued) || In(w, call, Dispatched)) && w.calls[call].reply.None?
  }

  function Moved(w: World, call: nat, phase: Phase): World {
    if call in w.calls then w.(calls := w.calls[call := w.calls[call].(phase := phase)]) else w
  }

  /** `try_send`: with a full channel, or without a dispatcher, the cancellation is dropped. */
  function TryCancel(w: World, id: string): World {
    if w.alive && |w.queue| < COMMAND_BUFFER then w.(queue := w.queue + [Cancel(id)])
    else w.(lost := w.lost + {id})
  }

  function TakeFirst(w: World): World
    requires w.queue != []
  {
    var v := w.(table := Handled(w.table, Commanded(w.queue[0])), queue := w.queue[1..]);
    match w.queue[0]
    case Cancel(_) => v
    case Register(_, call) => if In(w, call, Queued) then Moved(v, call, Confirmed) else v
  }

  /** The caller gets the reply if it is still waiting. */
  function ArriveReply(w: World, message: Reply): World {
    var v := w.(table := Handled(w.table, Arrived(message)));
    if Finds(w.table.pending, message) then
      var call := w.table.pending[message.correlation.value];
      if call in w.calls && Waits(w.calls[call])
      then v.(calls := w.calls[call := w.calls[call].(reply := Some(message))]) else v
    else v
  }

  /** The dispatcher ends, and its table and its command channel with it. */
  function Stopped(w: World): World {
    w.(table := w.table.(pending := map[]), queue := [], alive := false)
  }

  function Apply(w: World, e: Event): World {
    match e
    case Begin(call, id) => w.(calls := w.calls[call := Call(id, Queued, None)], queue := w.queue + [Register(id, call)])
    case TakeCommand => if w.queue == [] then w else TakeFirst(w)
    case Arrive(message) => ArriveReply(w, message)
    case DispatchRequest(call, ok) =>
      if call !in w.calls then w
      else if ok then Moved(w, call, Dispatched)
      else TryCancel(Moved(w, call, Failed), w.calls[call].id)
    case ReadReply(call) => Moved(w, call, Answered)
    case TimeOut(call) => if call in w.calls then TryCancel(Moved(w, call, TimedOut), w.calls[call].id) else w
    case Abandon(call) => Moved(w, call, Abandoned)
    case Stop => Stopped(w)
    case HearStop(call) => Moved(w, call, Unanswerable)
  }

  function Run(w: World, events: seq<Event>): World {
    if events == [] then w else Apply(Run(w, events[..|events| - 1]), events[|events| - 1])
  }

  ghost predicate Legal(w: World, events: seq<Event>) {
    events != [] ==>
      Legal(w, events[..|events| - 1]) && Enabled(Run(w, events[..|events| - 1]), events[|events| - 1])
  }

  // ---------- the invariant ----------

  /** Correlation ids tell calls apart. */
  ghost predicate IdsOk(calls: map<nat, Call>) {
    forall a, b :: a in calls && b in calls && calls[a].id == calls[b].id ==> a == b
  }

  ghost predicate PendingOk(pending: map<string, nat>, calls: map<nat, Call>) {
    forall id :: id in pending ==> pending[id] in calls && calls[pending[id]].id == id
  }

  predicate CommandOk(c: Command, pending: map<string, nat>, calls: map<nat, Call>) {
    match c
    case Register(id, call) => call in calls && calls[call].id == id && calls[call].phase in {Queued, Abandoned} && id !in pending
    case Cancel(id) => true
  }

  ghost predicate CancelOk(id: string, calls: map<nat, Call>) {
    exists c :: c in calls && calls[c].id == id && (calls[c].phase.Failed? || calls[c].phase.TimedOut?)
  }

  ghost predicate QueueOk(queue: seq<Command>, pending: map<string, nat>, calls: map<nat, Call>) {
    && |queue| <= COMMAND_BUFFER
    && (forall i :: 0 <= i < |queue| ==> CommandOk(queue[i], pending, calls))
    && (forall i :: 0 <= i < |queue| && queue[i].Cancel? ==> CancelOk(queue[i].id, calls))
    && (forall i, j :: 0 <= i < j < |queue| && queue[i].Register? && queue[j].Register? ==> queue[i].id != queue[j].id)
  }

  /** A registered call without a reply is in the table. */
  ghost predicate CallOk(c: nat, call: Call, pending: map<string, nat>, queue: seq<Command>, alive: bool) {
    && (call.reply.Some? ==> call.reply.value.correlation == Some(call.id) && !call.phase.Queued?)
    && (alive && (call.phase.Confirmed? || call.phase.Dispatched?) && call.reply.None? ==>
          call.id in pending && pending[call.id] == c)
    && (alive && call.phase.Queued? ==> Register(call.id, c) in queue)
    && (call.phase.Answered? ==> call.reply.Some?)
  }

  ghost predicate CallsOk(calls: map<nat, Call>, pending: map<string, nat>, queue: seq<Command>, alive: bool) {
    forall c :: c in calls ==> CallOk(c, calls[c], pending, queue, alive)
  }

  /** A call that was given a reply is not in the table any more, and not on its way there. */
  ghost predicate GivenOk(given: seq<Given>, calls: map<nat, Call>, pending: map<string, nat>, queue: seq<Command>) {
    && (forall i :: 0 <= i < |given| ==>
          given[i].call in calls && given[i].reply.correlation == Some(calls[given[i].call].id))
    && (forall i, j :: 0 <= i < j < |given| ==> given[i].call != given[j].call)
    && (forall i :: 0 <= i < |given| ==> calls[given[i].call].id !in pending && !calls[given[i].call].phase.Queued?)
    && (forall i, j :: 0 <= i < |given| && 0 <= j < |queue| && queue[j].Register? ==> queue[j].call != given[i].call)
    && (forall c :: c in calls && calls[c].reply.Some? ==> Given(c, calls[c].reply.value) in given)
  }

  /** An entry is of a waiting call, or of one whose cancellation is queued or was lost, or of one
      that was abandoned. */
  ghost predicate EntryOk(id: string, call: Call, queue: seq<Command>, lost: set<string>) {
    || ((call.phase.Confirmed? || call.phase.Dispatched?) && call.reply.None?)
    || ((call.phase.Failed? || call.phase.TimedOut?) && (Cancel(id) in queue || id in lost))
    || call.phase.Abandoned?
  }

  ghost predicate EntriesOk(pending: map<string, nat>, calls: map<nat, Call>, queue: seq<Command>, lost: set<string>) {
    forall id :: id in pending && pending[id] in calls ==> EntryOk(id, calls[pending[id]], queue, lost)
  }

  ghost predicate Inv(w: World) {
    && IdsOk(w.calls) && PendingOk(w.table.pending, w.calls)
    && QueueOk(w.queue, w.table.pending, w.calls)
    && CallsOk(w.calls, w.table.pending, w.queue, w.alive)
    && GivenOk(w.table.given, w.calls, w.table.pending, w.queue)
    && EntriesOk(w.table.pending, w.calls, w.queue, w.lost)
    && (!w.alive ==> w.queue == [] && w.table.pending == map[])
  }

  // ---------- the steps ----------

  lemma BeginQueue(queue: seq<Command>, pending: map<string, nat>, calls: map<nat, Call>, call: nat, id: string)
    requires QueueOk(queue, pending, calls) && PendingOk(pending, calls) && |queue| < COMMAND_BUFFER
    requires call !in calls && forall c :: c in calls ==> calls[c].id != id
    ensures QueueOk(queue + [Register(id, call)], pending, calls[call := Call(id, Queued, None)])
  {
    var q, after := queue + [Register(id, call)], calls[call := Call(id, Queued, None)];
    forall i | 0 <= i < |q| ensures CommandOk(q[i], pending, after) {
      if i < |queue| { assert CommandOk(queue[i], pending, calls); }
    }
    forall i | 0 <= i < |q| && q[i].Cancel? ensures CancelOk(q[i].id, after) {
      assert CancelOk(queue[i].id, calls);
      var c :| c in calls && calls[c].id == q[i].id && (calls[c].phase.Failed? || calls[c].phase.TimedOut?);
      assert c in after && after[c] == calls[c];
    }
    forall i, j | 0 <= i < j < |q| && q[i].Register? && q[j].Register? ensures q[i].id != q[j].id {
      assert CommandOk(queue[i], pending, calls);
    }
  }

  lemma BeginCalls(w: World, call: nat, id: string)
    requires Inv(w) && Enabled(w, Begin(call, id))
    ensures var v := Apply(w, Begin(call, id)); CallsOk(v.calls, v.table.pending, v.queue, v.alive)
  {
  }

  lemma BeginGiven(w: World, call: nat, id: string)
    requires Inv(w) && Enabled(w, Begin(call, id))
    ensures var v := Apply(w, Begin(call, id)); GivenOk(v.table.given, v.calls, v.table.pending, v.queue)
  {
  }

  lemma BeginEntries(w: World, call: nat, id: string)
    requires Inv(w) && Enabled(w, Begin(call, id))
    ensures var v := Apply(w, Begin(call, id)); EntriesOk(v.table.pending, v.calls, v.queue, v.lost)
  {
  }

  lemma BeginKeeps(w: World, call: nat, id: string)
    requires Inv(w) && Enabled(w, Begin(call, id))
    ensures Inv(Apply(w, Begin(call, id)))
  {
    BeginQueue(w.queue, w.table.pending, w.calls, call, id);
    BeginCalls(w, call, id);
    BeginGiven(w, call, id);
    BeginEntries(w, call, id);
  }

  // ---------- a call goes on ----------

  /** The phases a call goes through without the dispatcher taking part. */
  predicate GoesOn(w: World, call: nat, phase: Phase) {
    && call in w.calls
    && match phase
       case Dispatched => w.calls[call].phase.Confirmed?
       case Answered => w.calls[call].phase.Dispatched? && w.calls[call].reply.Some?
       case Abandoned => Waits(w.calls[call])
       case Unanswerable => !w.alive && Waits(w.calls[call]) && w.calls[call].reply.None?
       case Failed => w.calls[call].phase.Confirmed?
       case TimedOut => w.calls[call].phase.Dispatched?
       case _ => false
  }

  lemma GoesOnQueue(w: World, call: nat, phase: Phase)
    requires Inv(w) && GoesOn(w, call, phase)
    ensures QueueOk(w.queue, w.table.pending, Moved(w, call, phase).calls)
  {
    var after := Moved(w, call, phase).calls;
    forall i | 0 <= i < |w.queue| ensures CommandOk(w.queue[i], w.table.pending, after) {
      assert CommandOk(w.queue[i], w.table.pending, w.calls);
    }
    forall i | 0 <= i < |w.queue| && w.queue[i].Cancel? ensures CancelOk(w.queue[i].id, after) {
      assert CancelOk(w.queue[i].id, w.calls);
      var c :| c in w.calls && w.calls[c].id == w.queue[i].id && (w.calls[c].phase.Failed? || w.calls[c].phase.TimedOut?);
      assert c in after && after[c] == w.calls[c];
    }
  }

  lemma GoesOnCalls(w: World, call: nat, phase: Phase)
    requires Inv(w) && GoesOn(w, call, phase)
    ensures var after := Moved(w, call, phase).calls;
            && IdsOk(after) && PendingOk(w.table.pending, after) && CallsOk(after, w.table.pending, w.queue, w.alive)
            && GivenOk(w.table.given, after, w.table.pending, w.queue)
  {
  }

  lemma GoesOnEntries(w: World, call: nat, phase: Phase)
    requires Inv(w) && GoesOn(w, call, phase) && !phase.Failed? && !phase.TimedOut?
    ensures EntriesOk(w.table.pending, Moved(w, call, phase).calls, w.queue, w.lost)
  {
  }

  lemma GoesOnKeeps(w: World, call: nat, phase: Phase)
    requires Inv(w) && GoesOn(w, call, phase) && !phase.Failed? && !phase.TimedOut?
    ensures Inv(Moved(w, call, phase))
  {
    GoesOnQueue(w, call, phase);
    GoesOnCalls(w, call, phase);
    GoesOnEntries(w, call, phase);
  }

  // ---------- a call gives up ----------

  lemma CancelQueue(queue: seq<Command>, pending: map<string, nat>, calls: map<nat, Call>, id: string)
    requires QueueOk(queue, pending, calls) && CancelOk(id, calls) && |queue| < COMMAND_BUFFER
    ensures QueueOk(queue + [Cancel(id)], pending, calls)
  {
  }

  lemma CancelRest(calls: map<nat, Call>, table: Table, queue: seq<Command>, alive: bool, id: string)
    requires CallsOk(calls, table.pending, queue, alive) && GivenOk(table.given, calls, table.pending, queue)
    ensures CallsOk(calls, table.pending, queue + [Cancel(id)], alive)
    ensures GivenOk(table.given, calls, table.pending, queue + [Cancel(id)])
  {
  }

  /** The entry of a call that gave up is accounted for, whether its cancellation was queued or lost. */
  lemma CancelEntries(w: World, call: nat, phase: Phase, queue: seq<Command>, lost: set<string>)
    requires Inv(w) && GoesOn(w, call, phase) && (phase.Failed? || phase.TimedOut?)
    requires var id := w.calls[call].id;
             (queue == w.queue + [Cancel(id)] && lost == w.lost) || (queue == w.queue && lost == w.lost + {id})
    ensures EntriesOk(w.table.pending, Moved(w, call, phase).calls, queue, lost)
  {
  }

  lemma GivesUpKeeps(w: World, call: nat, phase: Phase)
    requires Inv(w) && GoesOn(w, call, phase) && (phase.Failed? || phase.TimedOut?)
    ensures Inv(TryCancel(Moved(w, call, phase), w.calls[call].id))
  {
    var v, id := Moved(w, call, phase), w.calls[call].id;
    GoesOnQueue(w, call, phase);
    GoesOnCalls(w, call, phase);
    assert v.calls[call].id == id;
    if w.alive && |w.queue| < COMMAND_BUFFER {
      CancelQueue(w.queue, w.table.pending, v.calls, id);
      CancelRest(v.calls, w.table, w.queue, w.alive, id);
      CancelEntries(w, call, phase, w.queue + [Cancel(id)], w.lost);
    } else {
      CancelEntries(w, call, phase, w.queue, w.lost + {id});
    }
  }

  // ---------- the dispatcher takes a command ----------

  lemma RegisterTaken(w: World, id: string, call: nat)
    requires Inv(w) && w.alive && w.queue != [] && w.queue[0] == Register(id, call)
    ensures call in w.calls && w.calls[call].id == id && w.calls[call].phase in {Queued, Abandoned} && id !in w.table.pending
    ensures forall i :: 1 <= i < |w.queue| && w.queue[i].Register? ==> w.queue[i].id != id && w.queue[i].call != call
  {
  }

  lemma RegisterQueue(w: World, id: string, call: nat)
    requires Inv(w) && w.alive && w.queue != [] && w.queue[0] == Register(id, call)
    ensures var v := TakeFirst(w); QueueOk(v.queue, v.table.pending, v.calls)
  {
    var v := TakeFirst(w);
    RegisterTaken(w, id, call);
    forall i | 0 <= i < |v.queue| ensures CommandOk(v.queue[i], v.table.pending, v.calls) {
      assert CommandOk(w.queue[i + 1], w.table.pending, w.calls);
    }
    forall i | 0 <= i < |v.queue| && v.queue[i].Cancel? ensures CancelOk(v.queue[i].id, v.calls) {
      assert CancelOk(w.queue[i + 1].id, w.calls);
      var c :| c in w.calls && w.calls[c].id == v.queue[i].id && (w.calls[c].phase.Failed? || w.calls[c].phase.TimedOut?);
      assert c in v.calls && v.calls[c] == w.calls[c];
    }
  }

  lemma RegisterCalls(w: World, id: string, call: nat)
    requires Inv(w) && w.alive && w.queue != [] && w.queue[0] == Register(id, call)
    ensures var v := TakeFirst(w); CallsOk(v.calls, v.table.pending, v.queue, v.alive)
  {
  }

  lemma RegisterIds(w: World, id: string, call: nat)
    requires Inv(w) && w.alive && w.queue != [] && w.queue[0] == Register(id, call)
    ensures var v := TakeFirst(w); IdsOk(v.calls) && PendingOk(v.table.pending, v.calls)
  {
  }

  lemma RegisterGiven(w: World, id: string, call: nat)
    requires Inv(w) && w.alive && w.queue != [] && w.queue[0] == Register(id, call)
    ensures var v := TakeFirst(w); GivenOk(v.table.given, v.calls, v.table.pending, v.queue)
  {
  }

  lemma RegisterEntries(w: World, id: string, call: nat)
    requires Inv(w) && w.alive && w.queue != [] && w.queue[0] == Register(id, call)
    ensures var v := TakeFirst(w); EntriesOk(v.table.pending, v.calls, v.queue, v.lost)
  {
  }

  lemma RegisterKeeps(w: World, id: string, call: nat)
    requires Inv(w) && w.alive && w.queue != [] && w.queue[0] == Register(id, call)
    ensures Inv(TakeFirst(w))
  {
    RegisterQueue(w, id, call);
    RegisterCalls(w, id, call);
    RegisterIds(w, id, call);
    RegisterGiven(w, id, call);
    RegisterEntries(w, id, call);
  }

  lemma CancelKeeps(w: World, id: string)
    requires Inv(w) && w.alive && w.queue != [] && w.queue[0] == Cancel(id)
    ensures Inv(TakeFirst(w))
  {
  }

  // ---------- a message arrives ----------

  lemma ArriveCalls(w: World, message: Reply)
    requires Inv(w) && w.alive && Finds(w.table.pending, message)
    ensures var v := ArriveReply(w, message);
            IdsOk(v.calls) && PendingOk(v.table.pending, v.calls) && CallsOk(v.calls, v.table.pending, v.queue, v.alive)
  {
  }

  lemma ArriveQueue(w: World, message: Reply)
    requires Inv(w) && w.alive && Finds(w.table.pending, message)
    ensures var v := ArriveReply(w, message); QueueOk(v.queue, v.table.pending, v.calls)
  {
    var v := ArriveReply(w, message);
    forall i | 0 <= i < |v.queue| ensures CommandOk(v.queue[i], v.table.pending, v.calls) {
      assert CommandOk(w.queue[i], w.table.pending, w.calls);
    }
    forall i | 0 <= i < |v.queue| && v.queue[i].Cancel? ensures CancelOk(v.queue[i].id, v.calls) {
      assert CancelOk(w.queue[i].id, w.calls);
      var c :| c in w.calls && w.calls[c].id == v.queue[i].id && (w.calls[c].phase.Failed? || w.calls[c].phase.TimedOut?);
      assert c in v.calls && v.calls[c].id == v.queue[i].id && v.calls[c].phase == w.calls[c].phase;
    }
  }

  /** The call found has not been handed a reply yet, and its registration is not under way. */
  lemma FoundIsNew(w: World, id: string)
    requires Inv(w) && id in w.table.pending
    ensures w.table.pending[id] in w.calls && w.calls[w.table.pending[id]].id == id
    ensures !w.calls[w.table.pending[id]].phase.Queued?
    ensures forall i :: 0 <= i < |w.table.given| ==> w.table.given[i].call != w.table.pending[id]
    ensures forall j :: 0 <= j < |w.queue| && w.queue[j].Register? ==> w.queue[j].call != w.table.pending[id]
  {
    var call := w.table.pending[id];
    assert EntryOk(id, w.calls[call], w.queue, w.lost);
    forall i | 0 <= i < |w.table.given| ensures w.table.given[i].call != call {
      assert w.calls[w.table.given[i].call].id !in w.table.pending;
    }
    forall j | 0 <= j < |w.queue| && w.queue[j].Register? ensures w.queue[j].call != call {
      assert CommandOk(w.queue[j], w.table.pending, w.calls);
    }
  }

  /** `after` are the same calls, but that one of them may have got the message. */
  predicate GotOne(calls: map<nat, Call>, after: map<nat, Call>, call: nat, message: Reply) {
    && after.Keys == calls.Keys
    && forall c :: c in calls ==> after[c] == calls[c] || (c == call && after[c] == calls[c].(reply := Some(message)))
  }

  lemma GivenAppended(given: seq<Given>, calls: map<nat, Call>, after: map<nat, Call>, pending: map<string, nat>,
                      queue: seq<Command>, id: string, call: nat, message: Reply)
    requires GivenOk(given, calls, pending, queue) && GotOne(calls, after, call, message)
    requires call in calls && calls[call].id == id && message.correlation == Some(id) && !calls[call].phase.Queued?
    requires forall i :: 0 <= i < |given| ==> given[i].call != call
    requires forall j :: 0 <= j < |queue| && queue[j].Register? ==> queue[j].call != call
    ensures GivenOk(given + [Given(call, message)], after, Without(pending, id), queue)
  {
    var all := given + [Given(call, message)];
    assert all[|given|] == Given(call, message);
    forall c | c in after && after[c].reply.Some? ensures Given(c, after[c].reply.value) in all {
      if after[c] == calls[c] { assert Given(c, calls[c].reply.value) in given; }
    }
  }

  lemma ArriveIsOne(w: World, message: Reply)
    requires Finds(w.table.pending, message)
    ensures GotOne(w.calls, ArriveReply(w, message).calls, w.table.pending[message.correlation.value], message)
  {
  }

  lemma ArriveGiven(w: World, message: Reply)
    requires Inv(w) && w.alive && Finds(w.table.pending, message)
    ensures var v := ArriveReply(w, message); GivenOk(v.table.given, v.calls, v.table.pending, v.queue)
  {
    var v, id := ArriveReply(w, message), message.correlation.value;
    FoundIsNew(w, id);
    ArriveIsOne(w, message);
    assert v.queue == w.queue && v.table.pending == Without(w.table.pending, id);
    GivenAppended(w.table.given, w.calls, v.calls, w.table.pending, w.queue, id, w.table.pending[id], message);
  }

  lemma ArriveKeeps(w: World, message: Reply)
    requires Inv(w) && w.alive
    ensures Inv(ArriveReply(w, message))
  {
    if Finds(w.table.pending, message) {
      ArriveCalls(w, message);
      ArriveQueue(w, message);
      ArriveGiven(w, message);
      ArriveEntries(w, message);
    }
  }

  lemma ArriveEntries(w: World, message: Reply)
    requires Inv(w) && w.alive && Finds(w.table.pending, message)
    ensures var v := ArriveReply(w, message); EntriesOk(v.table.pending, v.calls, v.queue, v.lost)
  {
  }

  lemma StopKeeps(w: World)
    requires Inv(w)
    ensures Inv(Stopped(w))
  {
  }

  lemma StepKeeps(w: World, e: Event)
    requires Inv(w) && Enabled(w, e)
    ensures Inv(Apply(w, e))
  {
    match e {
      case Begin(call, id) => BeginKeeps(w, call, id);
      case TakeCommand =>
        match w.queue[0] {
          case Register(id, call) => RegisterKeeps(w, id, call);
          case Cancel(id) => CancelKeeps(w, id);
        }
      case Arrive(message) => ArriveKeeps(w, message);
      case DispatchRequest(call, ok) => if ok { GoesOnKeeps(w, call, Dispatched); } else { GivesUpKeeps(w, call, Failed); }
      case ReadReply(call) => GoesOnKeeps(w, call, Answered);
      case TimeOut(call) => GivesUpKeeps(w, call, TimedOut);
      case Abandon(call) => GoesOnKeeps(w, call, Abandoned);
      case Stop => StopKeeps(w);
      case HearStop(call) => GoesOnKeeps(w, call, Unanswerable);
    }
  }

  lemma {:induction false} RunKeeps(events: seq<Event>)
    requires Legal(Start(), events)
    ensures Inv(Run(Start(), events))
  {
    if events != [] {
      RunKeeps(events[..|events| - 1]);
      StepKeeps(Run(Start(), events[..|events| - 1]), events[|events| - 1]);
    }
  }

  // ---------- whole runs ----------

  /** Every reply handed to a call carries that call's correlation id, and no call is handed two. */
  lemma {:induction false} RepliesAreOwn(events: seq<Event>)
    requires Legal(Start(), events)
    ensures var w := Run(Start(), events);
            && (forall i :: 0 <= i < |w.table.given| ==>
                  w.table.given[i].call in w.calls
                  && w.table.given[i].reply.correlation == Some(w.calls[w.table.given[i].call].id))
            && (forall i, j :: 0 <= i < j < |w.table.given| ==> w.table.given[i].call != w.table.given[j].call)
            && (forall c :: c in w.calls && w.calls[c].phase.Answered? ==>
                  w.calls[c].reply.Some? && w.calls[c].reply.value.correlation == Some(w.calls[c].id))
  {
    RunKeeps(events);
    var w := Run(Start(), events);
    forall c | c in w.calls ensures CallOk(c, w.calls[c], w.table.pending, w.queue, w.alive) {
    }
  }

  /** The call is registered, waits, and has no reply yet. */
  predicate Awaits(c: Call, message: Reply) {
    message.correlation == Some(c.id) && (c.phase.Confirmed? || c.phase.Dispatched?) && c.reply.None?
  }

  /** Whom an arriving message reaches: exactly the call with its correlation id, if that call is
      registered and still waits for its first reply. A reply that comes late, twice, or with a
      foreign id reaches nobody, even when the cancellation of its call was lost. */
  lemma {:induction false} ReplyReachesItsCaller(events: seq<Event>, message: Reply, c: nat)
    requires Legal(Start(), events) && Enabled(Run(Start(), events), Arrive(message)) && c in Run(Start(), events).calls
    ensures var w, v := Run(Start(), events), Apply(Run(Start(), events), Arrive(message));
            c in v.calls && v.calls[c] == if Awaits(w.calls[c], message) then w.calls[c].(reply := Some(message)) else w.calls[c]
  {
    RunKeeps(events);
    var w := Run(Start(), events);
    assert CallOk(c, w.calls[c], w.table.pending, w.queue, w.alive);
    if Finds(w.table.pending, message) {
      var id := message.correlation.value;
      assert EntryOk(id, w.calls[w.table.pending[id]], w.queue, w.lost);
    }
  }
}
