/** Runs of the delivery actor with readers that take, and go away, between any two of its steps. */
module DeliveryRuns {
  import opened Options
  import opened Subjects
  import opened RoutingTable
  import opened Subscriptions
  import opened LocalDelivery

  datatype Post<M> = Post(subject: string, msg: M)

  datatype Delivery = Delivery(id: nat, post: nat)

  /** What a subscriber asked for, and how many messages had been accepted by then. */
  datatype Joined = Joined(pattern: string, group: Option<string>, since: nat)

  /** Where the actor is: between commands, reserving places, or using the places it reserved. */
  datatype Phase<M> =
    | Idle
    | Reserving(post: Post<M>, todo: seq<nat>, dead: seq<nat>, permits: seq<nat>)
    | Sending(left: seq<nat>)

  /** The bus with its history: the flat list of subscriptions, every subscriber there ever was, the
      accepted messages, and who was sent which of them. */
  datatype World<M> = World(bus: Bus<M>, phase: Phase<M>, flat: Flat, joined: map<nat, Joined>,
                            posts: seq<Post<M>>, log: seq<Delivery>)

  datatype Event<M> =
    | Subscribe(pattern: string)
    | SubscribeGroup(pattern: string, group: string)
    | Dispatch(subject: string, msg: M)
    | Advance
    | Read(id: nat)
    | Close(id: nat)

  function Start<M>(): World<M> {
    World(Bus(Table([], 1), {}, map[]), Idle, Flat([], map[], 1), map[], [], [])
  }

  function FlatWithout(f: Flat, dead: seq<nat>): Flat {
    if dead == [] then f else FlatStep(FlatWithout(f, dead[..|dead| - 1]), OpRemove(dead[|dead| - 1]))
  }

  function Forget<M>(w: World<M>, dead: seq<nat>): World<M> {
    w.(bus := Forgotten(w.bus, w.bus.table, dead), flat := FlatWithout(w.flat, dead))
  }

  function Join<M>(w: World<M>, bus: Bus<M>, flat: Flat, id: nat, pattern: string, group: Option<string>): World<M> {
    w.(bus := bus, flat := flat, joined := w.joined[id := Joined(pattern, group, |w.posts|)])
  }

  function ApplySubscribe<M>(w: World<M>, pattern: string): World<M> {
    Join(w, Subscribed(w.bus, pattern), FlatStep(w.flat, OpFanout(pattern)), w.bus.table.nextId, pattern, None)
  }

  function ApplySubscribeGroup<M>(w: World<M>, pattern: string, group: string): World<M> {
    match SubscribedGroup(w.bus, pattern, group)
    case (b, Ok(id)) =>
      Join(w, b, FlatStep(FlatStep(w.flat, OpBind(pattern, group)), OpConsume(group)), id, pattern, Some(group))
    case (b, Err(_)) => w.(bus := b)
  }

  function ApplyDispatch<M>(w: World<M>, subject: string, msg: M): World<M> {
    w.(bus := w.bus.(table := Routed(w.bus, subject)),
       phase := Reserving(Post(subject, msg), AllTargets(w.bus.table.bindings, subject), [], []))
  }

  /** One step of `dispatch`. */
  function ApplyAdvance<M>(w: World<M>): World<M> {
    match w.phase
    case Idle => w
    case Reserving(post, todo, dead, permits) =>
      if todo == [] then Forget(w, dead).(phase := Sending(permits), posts := w.posts + [post])
      else
        (match Reserve(w.bus, dead, permits, todo[0])
         case Full(d) => Forget(w, d).(phase := Idle)
         case Ready(d, p) => w.(phase := Reserving(post, todo[1..], d, p)))
    case Sending(left) =>
      if left == [] then w.(phase := Idle) else ApplySend(w.(phase := Sending(left[1..])), left[0])
  }

  function ApplySend<M>(w: World<M>, id: nat): World<M> {
    if id in w.bus.channels && w.posts != []
    then w.(bus := w.bus.(channels := w.bus.channels[id := Put(w.bus.channels[id], w.posts[|w.posts| - 1].msg)]),
            log := w.log + [Delivery(id, |w.posts| - 1)])
    else w
  }

  function AfterRead<M>(c: Channel<M>): Channel<M>
    requires c.items != []
  {
    Channel(c.items[1..], c.open, c.taken + [c.items[0]])
  }

  function ApplyRead<M>(w: World<M>, id: nat): World<M> {
    if id in w.bus.channels && w.bus.channels[id].open && w.bus.channels[id].items != []
    then
      w.(bus := w.bus.(channels := w.bus.channels[id := AfterRead(w.bus.channels[id])]))
    else w
  }

  /** The receiver is dropped, with whatever is still queued. */
  function ApplyClose<M>(w: World<M>, id: nat): World<M> {
    if id in w.bus.channels
    then w.(bus := w.bus.(channels := w.bus.channels[id := w.bus.channels[id].(items := [], open := false)]))
    else w
  }

  /** Readers act at any time, commands are handled one after the other. */
  function Apply<M>(w: World<M>, e: Event<M>): World<M> {
    match e
    case Subscribe(pattern) => if w.phase.Idle? then ApplySubscribe(w, pattern) else w
    case SubscribeGroup(pattern, group) => if w.phase.Idle? then ApplySubscribeGroup(w, pattern, group) else w
    case Dispatch(subject, msg) => if w.phase.Idle? then ApplyDispatch(w, subject, msg) else w
    case Advance => ApplyAdvance(w)
    case Read(id) => ApplyRead(w, id)
    case Close(id) => ApplyClose(w, id)
  }

  function Run<M>(w: World<M>, events: seq<Event<M>>): World<M> {
    if events == [] then w else Apply(Run(w, events[..|events| - 1]), events[|events| - 1])
  }

  // ---------- the invariant ----------

  ghost predicate Listed(f: Flat, id: nat) {
    exists i :: 0 <= i < |f.subs| && f.subs[i].id == id
  }

  ghost predicate AllListed(ids: set<nat>, f: Flat) {
    forall id :: id in ids ==> Listed(f, id)
  }

  ghost predicate JoinedAs(joined: map<nat, Joined>, sub: Sub) {
    sub.id in joined && joined[sub.id].pattern == sub.pattern && joined[sub.id].group == sub.group
  }

  ghost predicate AllJoined(f: Flat, ids: set<nat>, joined: map<nat, Joined>) {
    forall i :: 0 <= i < |f.subs| ==> f.subs[i].id in ids && JoinedAs(joined, f.subs[i])
  }

  ghost predicate Opens<M>(channels: map<nat, Channel<M>>, ids: set<nat>, joined: map<nat, Joined>, next: nat) {
    && (forall id :: id in joined ==> id in channels && id < next)
    && (forall id :: id in channels ==> id in joined && (channels[id].open ==> id in ids))
  }

  /** The routing table, the sender map and the channels are about the same subscribers. */
  ghost predicate Bound<M>(bus: Bus<M>, f: Flat, joined: map<nat, Joined>) {
    && Refines(bus.table, f)
    && AllJoined(f, bus.senders, joined) && AllListed(bus.senders, f)
    && Opens(bus.channels, bus.senders, joined, f.nextId)
  }

  ghost predicate Apart(joined: map<nat, Joined>, a: nat, b: nat) {
    && a in joined && b in joined && a != b
    && (joined[a].group.Some? ==> joined[a].group != joined[b].group)
  }

  /** Nobody twice, and no two members of one group. */
  ghost predicate OneEach(joined: map<nat, Joined>, ids: seq<nat>) {
    && (forall i :: 0 <= i < |ids| ==> ids[i] in joined)
    && (forall i, j :: 0 <= i < j < |ids| ==> Apart(joined, ids[i], ids[j]))
  }

  function Places<M>(phase: Phase<M>): seq<nat> {
    match phase
    case Idle => []
    case Reserving(_, _, _, permits) => permits
    case Sending(left) => left
  }

  /** What is queued and what is promised fits. */
  ghost predicate Room<M>(channels: map<nat, Channel<M>>, places: seq<nat>) {
    forall id :: id in channels ==> |channels[id].items| + multiset(places)[id] <= SUBSCRIPTION_BUFFER
  }

  /** The accepted messages from `since` on whose subject matches. */
  function Matching<M>(posts: seq<Post<M>>, since: nat, pattern: string): seq<M> {
    if |posts| <= since then []
    else
      var last := posts[|posts| - 1];
      Matching(posts[..|posts| - 1], since, pattern)
      + if Matches(Split(pattern), Split(last.subject)) then [last.msg] else []
  }

  function Pending<M>(phase: Phase<M>, posts: seq<Post<M>>, id: nat): seq<M> {
    if phase.Sending? && id in phase.left && posts != [] then [posts[|posts| - 1].msg] else []
  }

  /** An open fanout subscriber has got, or is about to get, exactly the accepted messages that
      match, in order. */
  ghost predicate StreamOk<M>(c: Channel<M>, j: Joined, pending: seq<M>, posts: seq<Post<M>>) {
    c.open && j.group.None? ==>
      j.since <= |posts| && c.taken + c.items + pending == Matching(posts, j.since, j.pattern)
  }

  ghost predicate Exact<M>(channels: map<nat, Channel<M>>, joined: map<nat, Joined>, phase: Phase<M>,
                           posts: seq<Post<M>>, id: nat) {
    id in channels && id in joined ==> StreamOk(channels[id], joined[id], Pending(phase, posts, id), posts)
  }

  ghost predicate AllExact<M>(channels: map<nat, Channel<M>>, joined: map<nat, Joined>, phase: Phase<M>,
                              posts: seq<Post<M>>) {
    forall id :: id in channels ==> Exact(channels, joined, phase, posts, id)
  }

  /** An open fanout subscriber is among the targets exactly when its pattern matches. */
  ghost predicate Aimed<M>(bus: Bus<M>, joined: map<nat, Joined>, phase: Phase<M>, id: nat) {
    phase.Reserving? && id in bus.channels && bus.channels[id].open && id in joined && joined[id].group.None? ==>
      (id in phase.permits + phase.todo <==>
       Matches(Split(joined[id].pattern), Split(phase.post.subject)))
  }

  ghost predicate PhaseOk<M>(bus: Bus<M>, joined: map<nat, Joined>, phase: Phase<M>, posts: seq<Post<M>>) {
    match phase
    case Idle => true
    case Reserving(post, todo, dead, permits) =>
      && OneEach(joined, permits + todo)
      && (forall id :: id in dead ==> id in bus.channels && !bus.channels[id].open)
      && (forall id :: id in bus.channels ==> Aimed(bus, joined, phase, id))
    case Sending(left) => OneEach(joined, left) && posts != []
  }

  /** No message is sent twice to one subscriber, nor to two members of one group. */
  ghost predicate Once(joined: map<nat, Joined>, log: seq<Delivery>) {
    forall i, j :: 0 <= i < j < |log| && log[i].post == log[j].post ==> Apart(joined, log[i].id, log[j].id)
  }

  ghost predicate Logged<M>(joined: map<nat, Joined>, phase: Phase<M>, posts: seq<Post<M>>, log: seq<Delivery>) {
    && Once(joined, log)
    && (forall i :: 0 <= i < |log| ==> log[i].post < |posts| && log[i].id in joined)
    && (phase.Sending? ==>
        forall i, j :: 0 <= i < |log| && 0 <= j < |phase.left| && log[i].post == |posts| - 1 ==>
          Apart(joined, log[i].id, phase.left[j]))
  }

  /** What the log says a subscriber was sent. */
  function Received<M>(posts: seq<Post<M>>, log: seq<Delivery>, id: nat): seq<M> {
    if log == [] then []
    else
      var last := log[|log| - 1];
      Received(posts, log[..|log| - 1], id)
      + if last.id == id && last.post < |posts| then [posts[last.post].msg] else []
  }

  ghost predicate Accounted<M>(channels: map<nat, Channel<M>>, posts: seq<Post<M>>, log: seq<Delivery>) {
    forall id :: id in channels && channels[id].open ==>
      channels[id].taken + channels[id].items == Received(posts, log, id)
  }

  ghost predicate Inv<M>(w: World<M>) {
    && Bound(w.bus, w.flat, w.joined)
    && Room(w.bus.channels, Places(w.phase))
    && AllExact(w.bus.channels, w.joined, w.phase, w.posts)
    && PhaseOk(w.bus, w.joined, w.phase, w.posts)
    && Logged(w.joined, w.phase, w.posts, w.log)
    && Accounted(w.bus.channels, w.posts, w.log)
  }

  // ---------- subscribing ----------

  lemma {:induction false} NothingReceived<M>(posts: seq<Post<M>>, log: seq<Delivery>, id: nat)
    requires forall i :: 0 <= i < |log| ==> log[i].id != id
    ensures Received(posts, log, id) == []
  {
    if log != [] {
      NothingReceived(posts, log[..|log| - 1], id);
    }
  }

  lemma LogJoins<M>(joined: map<nat, Joined>, posts: seq<Post<M>>, log: seq<Delivery>, id: nat, j: Joined)
    requires id !in joined && Logged(joined, Idle, posts, log)
    ensures Logged(joined[id := j], Idle, posts, log)
  {
  }

  lemma JoinExact<M>(channels: map<nat, Channel<M>>, joined: map<nat, Joined>, posts: seq<Post<M>>, id: nat, j: Joined)
    requires AllExact(channels, joined, Idle, posts) && id !in joined && j.since == |posts|
    ensures AllExact(channels[id := Channel([], true, [])], joined[id := j], Idle, posts)
  {
    forall x | x in channels && x != id
      ensures Exact(channels[id := Channel([], true, [])], joined[id := j], Idle, posts, x)
    {
      assert Exact(channels, joined, Idle, posts, x);
    }
  }

  lemma {:induction false} JoinAccounted<M>(channels: map<nat, Channel<M>>, posts: seq<Post<M>>, log: seq<Delivery>, id: nat)
    requires Accounted(channels, posts, log) && Received(posts, log, id) == []
    ensures Accounted(channels[id := Channel([], true, [])], posts, log)
  {
  }

  /** A new subscriber starts with nothing and changes nothing for the others. */
  lemma JoinKeeps<M>(w: World<M>, bus: Bus<M>, f: Flat, id: nat, pattern: string, group: Option<string>)
    requires Inv(w) && w.phase.Idle? && id !in w.joined
    requires bus.channels == w.bus.channels[id := Channel([], true, [])]
    requires Bound(bus, f, w.joined[id := Joined(pattern, group, |w.posts|)])
    ensures Inv(Join(w, bus, f, id, pattern, group))
  {
    LogJoins(w.joined, w.posts, w.log, id, Joined(pattern, group, |w.posts|));
    NothingReceived(w.posts, w.log, id);
    JoinExact(w.bus.channels, w.joined, w.posts, id, Joined(pattern, group, |w.posts|));
    JoinAccounted(w.bus.channels, w.posts, w.log, id);
  }

  lemma OneMoreJoined(f: Flat, g: Flat, ids: set<nat>, joined: map<nat, Joined>, sub: Sub, since: nat)
    requires AllJoined(f, ids, joined) && AllListed(ids, f) && sub.id !in joined && g.subs == f.subs + [sub]
    ensures AllJoined(g, ids + {sub.id}, joined[sub.id := Joined(sub.pattern, sub.group, since)])
    ensures AllListed(ids + {sub.id}, g)
  {
    var after := joined[sub.id := Joined(sub.pattern, sub.group, since)];
    forall i | 0 <= i < |g.subs| ensures g.subs[i].id in ids + {sub.id} && JoinedAs(after, g.subs[i]) {
      if i < |f.subs| { assert g.subs[i] == f.subs[i] && JoinedAs(joined, f.subs[i]); }
    }
    forall id | id in ids + {sub.id} ensures Listed(g, id) {
      if id == sub.id {
        assert g.subs[|f.subs|].id == id;
      } else {
        assert Listed(f, id);
        var i :| 0 <= i < |f.subs| && f.subs[i].id == id;
        assert g.subs[i].id == id;
      }
    }
  }

  lemma BoundJoins<M>(b: Bus<M>, f: Flat, joined: map<nat, Joined>, t: Table, g: Flat, sub: Sub, since: nat)
    requires Bound(b, f, joined) && Refines(t, g)
    requires g.subs == f.subs + [sub] && sub.id == f.nextId && g.nextId == f.nextId + 1
    ensures sub.id !in joined
    ensures Bound(Opened(b, t, sub.id), g, joined[sub.id := Joined(sub.pattern, sub.group, since)])
  {
    assert Opens(b.channels, b.senders, joined, f.nextId);
    OneMoreJoined(f, g, b.senders, joined, sub, since);
  }

  lemma SubscribeKeeps<M>(w: World<M>, pattern: string)
    requires Inv(w) && w.phase.Idle?
    ensures Inv(ApplySubscribe(w, pattern))
  {
    var id, g := w.bus.table.nextId, FlatStep(w.flat, OpFanout(pattern));
    FanoutRefines(w.bus.table, w.flat, pattern);
    BoundJoins(w.bus, w.flat, w.joined, AddFanout(w.bus.table, pattern), g, Sub(id, pattern, None), |w.posts|);
    JoinKeeps(w, Subscribed(w.bus, pattern), g, id, pattern, None);
  }

  lemma SubscribeGroupKeeps<M>(w: World<M>, pattern: string, group: string)
    requires Inv(w) && w.phase.Idle?
    ensures Inv(ApplySubscribeGroup(w, pattern, group))
    ensures SubscribedGroup(w.bus, pattern, group).1.Ok? <==>
              (group in w.flat.queues ==> w.flat.queues[group] == pattern)
  {
    var f := FlatStep(w.flat, OpBind(pattern, group));
    BindRefines(w.bus.table, w.flat, pattern, group);
    if BindQueue(w.bus.table, pattern, group).Ok? {
      var t := BindQueue(w.bus.table, pattern, group).value;
      var g := FlatStep(f, OpConsume(group));
      ConsumeRefines(t, f, group);
      assert Bound(w.bus.(table := t), f, w.joined);
      BoundJoins(w.bus.(table := t), f, w.joined, AddConsumer(t, group).0, g,
                 Sub(f.nextId, pattern, Some(group)), |w.posts|);
      JoinKeeps(w, SubscribedGroup(w.bus, pattern, group).0, g, f.nextId, pattern, Some(group));
    }
  }

  // ---------- dispatching ----------

  lemma SameGroupOnce(t: Table, f: Flat, subject: string, a: Sub, b: Sub)
    requires Refines(t, f) && a in f.subs && b in f.subs
    requires Selected(t, f, subject, a) && Selected(t, f, subject, b)
    requires a.group.Some? && a.group == b.group
    ensures a.id == b.id
  {
  }

  lemma {:induction false} TargetApart(t: Table, f: Flat, joined: map<nat, Joined>, subject: string, a: nat, b: nat)
    requires Refines(t, f) && a != b
    requires forall i :: 0 <= i < |f.subs| ==> JoinedAs(joined, f.subs[i])
    requires a in AllTargets(t.bindings, subject) && b in AllTargets(t.bindings, subject)
    ensures Apart(joined, a, b)
  {
    RouteIsExact(t, f, subject);
    var x :| x in f.subs && x.id == a;
    var y :| y in f.subs && y.id == b;
    assert JoinedAs(joined, x) && JoinedAs(joined, y);
    if x.group.Some? && x.group == y.group {
      SameGroupOnce(t, f, subject, x, y);
    }
  }

  lemma {:induction false} TargetsOneEach(t: Table, f: Flat, joined: map<nat, Joined>, subject: string)
    requires Refines(t, f) && forall i :: 0 <= i < |f.subs| ==> JoinedAs(joined, f.subs[i])
    ensures OneEach(joined, AllTargets(t.bindings, subject))
  {
    var targets := AllTargets(t.bindings, subject);
    RouteIsExact(t, f, subject);
    forall i | 0 <= i < |targets| ensures targets[i] in joined {
      assert targets[i] in targets;
      var x :| x in f.subs && x.id == targets[i];
      assert JoinedAs(joined, x);
    }
    forall i, j | 0 <= i < j < |targets| ensures Apart(joined, targets[i], targets[j]) {
      assert targets[i] in targets && targets[j] in targets && targets[i] != targets[j];
      TargetApart(t, f, joined, subject, targets[i], targets[j]);
    }
  }

  lemma {:induction false} DispatchAims<M>(b: Bus<M>, f: Flat, joined: map<nat, Joined>, subject: string, msg: M, id: nat)
    requires Bound(b, f, joined) && id in b.channels
    ensures Aimed(b, joined, Reserving(Post(subject, msg), AllTargets(b.table.bindings, subject), [], []), id)
  {
    if b.channels[id].open && joined[id].group.None? {
      RouteIsExact(b.table, f, subject);
      var i :| 0 <= i < |f.subs| && f.subs[i].id == id;
      assert JoinedAs(joined, f.subs[i]) && f.subs[i] in f.subs;
      assert [] + AllTargets(b.table.bindings, subject) == AllTargets(b.table.bindings, subject);
    }
  }

  /** While no place is being used, no message is pending. */
  lemma StreamsUnmoved<M>(channels: map<nat, Channel<M>>, joined: map<nat, Joined>, p: Phase<M>, q: Phase<M>, posts: seq<Post<M>>)
    requires AllExact(channels, joined, p, posts) && !p.Sending? && !q.Sending?
    ensures AllExact(channels, joined, q, posts)
  {
  }

  lemma LogsUnmoved<M>(joined: map<nat, Joined>, p: Phase<M>, q: Phase<M>, posts: seq<Post<M>>, log: seq<Delivery>)
    requires Logged(joined, p, posts, log) && !q.Sending?
    ensures Logged(joined, q, posts, log)
  {
  }

  lemma {:induction false} DispatchPhase<M>(b: Bus<M>, f: Flat, joined: map<nat, Joined>, subject: string, msg: M, posts: seq<Post<M>>)
    requires Bound(b, f, joined)
    ensures PhaseOk(b.(table := Routed(b, subject)), joined,
                    Reserving(Post(subject, msg), AllTargets(b.table.bindings, subject), [], []), posts)
  {
    var phase := Reserving(Post(subject, msg), AllTargets(b.table.bindings, subject), [], []);
    TargetsOneEach(b.table, f, joined, subject);
    assert phase.permits + phase.todo == phase.todo;
    forall id | id in b.channels ensures Aimed(b.(table := Routed(b, subject)), joined, phase, id) {
      DispatchAims(b, f, joined, subject, msg, id);
      assert Aimed(b, joined, phase, id);
    }
  }

  lemma DispatchKeeps<M>(w: World<M>, subject: string, msg: M)
    requires Inv(w) && w.phase.Idle?
    ensures Inv(ApplyDispatch(w, subject, msg))
  {
    RouteRefines(w.bus.table, w.flat, subject);
    DispatchPhase(w.bus, w.flat, w.joined, subject, msg, w.posts);
    StreamsUnmoved(w.bus.channels, w.joined, w.phase, ApplyDispatch(w, subject, msg).phase, w.posts);
    LogsUnmoved(w.joined, w.phase, ApplyDispatch(w, subject, msg).phase, w.posts, w.log);
  }

  // ---------- forgetting the dead ----------

  lemma {:induction false} DeadRefine(t: Table, f: Flat, dead: seq<nat>)
    requires Refines(t, f)
    ensures Refines(WithoutAll(t, dead), FlatWithout(f, dead))
    ensures FlatWithout(f, dead).nextId == f.nextId
  {
    if dead != [] {
      DeadRefine(t, f, dead[..|dead| - 1]);
      RemoveRefines(WithoutAll(t, dead[..|dead| - 1]), FlatWithout(f, dead[..|dead| - 1]), dead[|dead| - 1]);
    }
  }

  lemma {:induction false} StayingMembers(f: Flat, dead: seq<nat>)
    ensures forall sub :: sub in FlatWithout(f, dead).subs <==> sub in f.subs && sub.id !in dead
  {
    if dead != [] {
      StayingMembers(f, dead[..|dead| - 1]);
      OthersMembers(FlatWithout(f, dead[..|dead| - 1]).subs, dead[|dead| - 1]);
      assert dead == dead[..|dead| - 1] + [dead[|dead| - 1]];
    }
  }

  /** Whoever has gone away leaves the table, the sender map and the list together. */
  lemma {:induction false} ForgetKeeps<M>(b: Bus<M>, f: Flat, joined: map<nat, Joined>, dead: seq<nat>)
    requires Bound(b, f, joined) && forall id :: id in dead ==> id in b.channels && !b.channels[id].open
    ensures Bound(Forgotten(b, b.table, dead), FlatWithout(f, dead), joined)
  {
    var bus, g := Forgotten(b, b.table, dead), FlatWithout(f, dead);
    DeadRefine(b.table, f, dead);
    StayingMembers(f, dead);
    forall i | 0 <= i < |g.subs| ensures g.subs[i].id in bus.senders && JoinedAs(joined, g.subs[i]) {
      assert g.subs[i] in g.subs;
      var j :| 0 <= j < |f.subs| && f.subs[j] == g.subs[i];
      assert JoinedAs(joined, f.subs[j]);
    }
    forall id | id in bus.senders ensures Listed(g, id) {
      StillListed(f, g, id);
    }
  }

  lemma StillListed(f: Flat, g: Flat, id: nat)
    requires Listed(f, id) && forall sub :: sub in f.subs && sub.id == id ==> sub in g.subs
    ensures Listed(g, id)
  {
    var i :| 0 <= i < |f.subs| && f.subs[i].id == id;
    assert f.subs[i] in g.subs;
    var j :| 0 <= j < |g.subs| && g.subs[j] == f.subs[i];
    assert g.subs[j].id == id;
  }

  // ---------- reserving ----------

  lemma OneEachDrops(joined: map<nat, Joined>, a: seq<nat>, x: nat, b: seq<nat>)
    requires OneEach(joined, a + [x] + b)
    ensures OneEach(joined, a + b)
  {
    var all, less := a + [x] + b, a + b;
    forall i | 0 <= i < |less| ensures less[i] in joined {
      assert less[i] == all[if i < |a| then i else i + 1];
    }
    forall i, j | 0 <= i < j < |less| ensures Apart(joined, less[i], less[j]) {
      assert less[i] == all[if i < |a| then i else i + 1] && less[j] == all[if j < |a| then j else j + 1];
    }
  }

  lemma SkipAims<M>(b: Bus<M>, joined: map<nat, Joined>, p: Phase<M>, q: Phase<M>, id: nat)
    requires p.Reserving? && q.Reserving? && p.todo != [] && Aimed(b, joined, p, id)
    requires q.post == p.post && q.todo == p.todo[1..] && q.permits == p.permits
    requires !(p.todo[0] in b.channels && b.channels[p.todo[0]].open)
    ensures Aimed(b, joined, q, id)
  {
  }

  lemma TakeAims<M>(b: Bus<M>, joined: map<nat, Joined>, p: Phase<M>, q: Phase<M>, id: nat)
    requires p.Reserving? && q.Reserving? && p.todo != [] && Aimed(b, joined, p, id)
    requires q.post == p.post && q.todo == p.todo[1..] && q.permits == p.permits + [p.todo[0]]
    ensures Aimed(b, joined, q, id)
  {
  }

  lemma SkipPhase<M>(b: Bus<M>, joined: map<nat, Joined>, p: Phase<M>, dead: seq<nat>, posts: seq<Post<M>>)
    requires PhaseOk(b, joined, p, posts) && p.Reserving? && p.todo != []
    requires !(p.todo[0] in b.channels && b.channels[p.todo[0]].open)
    requires forall id :: id in dead ==> id in b.channels && !b.channels[id].open
    ensures PhaseOk(b, joined, Reserving(p.post, p.todo[1..], dead, p.permits), posts)
  {
    var q := Reserving(p.post, p.todo[1..], dead, p.permits);
    assert p.permits + p.todo == p.permits + [p.todo[0]] + q.todo;
    OneEachDrops(joined, p.permits, p.todo[0], q.todo);
    forall id | id in b.channels ensures Aimed(b, joined, q, id) {
      assert Aimed(b, joined, p, id);
      SkipAims(b, joined, p, q, id);
    }
  }

  /** Passing over a target: nobody has it in the sender map any more, or it has gone away. */
  lemma SkipKeeps<M>(w: World<M>, dead: seq<nat>)
    requires Inv(w) && w.phase.Reserving? && w.phase.todo != []
    requires !(w.phase.todo[0] in w.bus.channels && w.bus.channels[w.phase.todo[0]].open)
    requires forall id :: id in dead ==> id in w.bus.channels && !w.bus.channels[id].open
    ensures Inv(w.(phase := Reserving(w.phase.post, w.phase.todo[1..], dead, w.phase.permits)))
  {
    SkipPhase(w.bus, w.joined, w.phase, dead, w.posts);
    StreamsUnmoved(w.bus.channels, w.joined, w.phase, Reserving(w.phase.post, w.phase.todo[1..], dead, w.phase.permits), w.posts);
  }

  lemma TakePhase<M>(b: Bus<M>, joined: map<nat, Joined>, p: Phase<M>, posts: seq<Post<M>>)
    requires PhaseOk(b, joined, p, posts) && p.Reserving? && p.todo != []
    ensures PhaseOk(b, joined, Reserving(p.post, p.todo[1..], p.dead, p.permits + [p.todo[0]]), posts)
  {
    var q := Reserving(p.post, p.todo[1..], p.dead, p.permits + [p.todo[0]]);
    assert q.permits + q.todo == p.permits + p.todo;
    forall id | id in b.channels ensures Aimed(b, joined, q, id) {
      assert Aimed(b, joined, p, id);
      TakeAims(b, joined, p, q, id);
    }
  }

  lemma TakeRoom<M>(channels: map<nat, Channel<M>>, permits: seq<nat>, id: nat)
    requires Room(channels, permits) && id in channels
    requires |channels[id].items| + multiset(permits)[id] < SUBSCRIPTION_BUFFER
    ensures Room(channels, permits + [id])
  {
  }

  lemma TakeKeeps<M>(w: World<M>)
    requires Inv(w) && w.phase.Reserving? && w.phase.todo != [] && w.phase.todo[0] in w.bus.channels
    requires |w.bus.channels[w.phase.todo[0]].items| + multiset(w.phase.permits)[w.phase.todo[0]] < SUBSCRIPTION_BUFFER
    ensures Inv(w.(phase := Reserving(w.phase.post, w.phase.todo[1..], w.phase.dead, w.phase.permits + [w.phase.todo[0]])))
  {
    var q := Reserving(w.phase.post, w.phase.todo[1..], w.phase.dead, w.phase.permits + [w.phase.todo[0]]);
    TakePhase(w.bus, w.joined, w.phase, w.posts);
    TakeRoom(w.bus.channels, w.phase.permits, w.phase.todo[0]);
    StreamsUnmoved(w.bus.channels, w.joined, w.phase, q, w.posts);
  }

  /** A full target: the places are given back and nobody is sent anything. */
  lemma RefuseKeeps<M>(w: World<M>)
    requires Inv(w) && w.phase.Reserving?
    ensures Inv(Forget(w, w.phase.dead).(phase := Idle))
  {
    ForgetKeeps(w.bus, w.flat, w.joined, w.phase.dead);
    StreamsUnmoved(w.bus.channels, w.joined, w.phase, Idle, w.posts);
    assert forall id :: multiset([])[id] <= multiset(w.phase.permits)[id];
  }

  lemma ReserveKeeps<M>(w: World<M>)
    requires Inv(w) && w.phase.Reserving? && w.phase.todo != []
    ensures Inv(ApplyAdvance(w))
  {
    var id := w.phase.todo[0];
    if id !in w.bus.senders || id !in w.bus.channels {
      SkipKeeps(w, w.phase.dead);
    } else if !w.bus.channels[id].open {
      SkipKeeps(w, w.phase.dead + [id]);
    } else if |w.bus.channels[id].items| + multiset(w.phase.permits)[id] >= SUBSCRIPTION_BUFFER {
      RefuseKeeps(w);
    } else {
      TakeKeeps(w);
    }
  }

  // ---------- accepting and sending ----------

  lemma {:induction false} ReceivedSoFar<M>(posts: seq<Post<M>>, log: seq<Delivery>, post: Post<M>, id: nat)
    requires forall i :: 0 <= i < |log| ==> log[i].post < |posts|
    ensures Received(posts + [post], log, id) == Received(posts, log, id)
  {
    if log != [] {
      ReceivedSoFar(posts, log[..|log| - 1], post, id);
    }
  }

  lemma CommitExact<M>(w: World<M>, id: nat)
    requires Inv(w) && w.phase.Reserving? && w.phase.todo == [] && id in w.bus.channels
    ensures Exact(w.bus.channels, w.joined, Sending(w.phase.permits), w.posts + [w.phase.post], id)
  {
  }

  lemma CommitKeeps<M>(w: World<M>)
    requires Inv(w) && w.phase.Reserving? && w.phase.todo == []
    ensures Inv(ApplyAdvance(w))
  {
    var posts := w.posts + [w.phase.post];
    ForgetKeeps(w.bus, w.flat, w.joined, w.phase.dead);
    assert w.phase.permits + [] == w.phase.permits;
    forall id | id in w.bus.channels
      ensures Exact(w.bus.channels, w.joined, Sending(w.phase.permits), posts, id)
      ensures Received(posts, w.log, id) == Received(w.posts, w.log, id)
    {
      CommitExact(w, id);
      ReceivedSoFar(w.posts, w.log, w.phase.post, id);
    }
  }

  lemma OneEachTail(joined: map<nat, Joined>, ids: seq<nat>)
    requires OneEach(joined, ids) && ids != []
    ensures OneEach(joined, ids[1..]) && ids[0] !in ids[1..]
  {
  }

  lemma SendLogs<M>(joined: map<nat, Joined>, left: seq<nat>, posts: seq<Post<M>>, log: seq<Delivery>)
    requires Logged(joined, Sending(left), posts, log) && OneEach(joined, left) && left != [] && posts != []
    ensures Logged(joined, Sending(left[1..]), posts, log + [Delivery(left[0], |posts| - 1)])
  {
  }

  lemma SendRooms<M>(channels: map<nat, Channel<M>>, left: seq<nat>, msg: M)
    requires Room(channels, left) && left != [] && left[0] in channels
    ensures Room(channels[left[0] := Put(channels[left[0]], msg)], left[1..])
  {
    assert left == [left[0]] + left[1..];
  }

  lemma SendStreams<M>(channels: map<nat, Channel<M>>, joined: map<nat, Joined>, left: seq<nat>,
                       posts: seq<Post<M>>, log: seq<Delivery>)
    requires left != [] && posts != [] && left[0] in channels && left[0] !in left[1..]
    requires AllExact(channels, joined, Sending(left), posts) && Accounted(channels, posts, log)
    ensures var after := channels[left[0] := Put(channels[left[0]], posts[|posts| - 1].msg)];
            && AllExact(after, joined, Sending(left[1..]), posts)
            && Accounted(after, posts, log + [Delivery(left[0], |posts| - 1)])
  {
  }

  /** `w` after the next target was sent the message. */
  function Sent<M>(w: World<M>, id: nat, msg: M): World<M>
    requires w.phase.Sending? && w.phase.left != [] && w.posts != [] && id in w.bus.channels
  {
    World(w.bus.(channels := w.bus.channels[id := Put(w.bus.channels[id], msg)]), Sending(w.phase.left[1..]), w.flat,
          w.joined, w.posts, w.log + [Delivery(id, |w.posts| - 1)])
  }

  lemma NextIsKnown<M>(w: World<M>)
    requires Inv(w) && w.phase.Sending? && w.phase.left != []
    ensures w.posts != [] && w.phase.left[0] in w.bus.channels
  {
  }

  lemma SendPlaces<M>(w: World<M>, v: World<M>, left: seq<nat>)
    requires Inv(w) && w.phase == Sending(left) && left != [] && w.posts != [] && left[0] in w.bus.channels
    requires v == Sent(w, left[0], w.posts[|w.posts| - 1].msg)
    ensures Room(v.bus.channels, Places(v.phase)) && PhaseOk(v.bus, v.joined, v.phase, v.posts)
    ensures left[0] !in left[1..]
  {
    OneEachTail(w.joined, left);
    SendRooms(w.bus.channels, left, w.posts[|w.posts| - 1].msg);
  }

  lemma SendHistory<M>(w: World<M>, v: World<M>, left: seq<nat>)
    requires w.phase == Sending(left) && left != [] && w.posts != [] && left[0] in w.bus.channels
    requires AllExact(w.bus.channels, w.joined, Sending(left), w.posts) && Accounted(w.bus.channels, w.posts, w.log)
    requires Logged(w.joined, Sending(left), w.posts, w.log) && OneEach(w.joined, left)
    requires v == Sent(w, left[0], w.posts[|w.posts| - 1].msg) && left[0] !in left[1..]
    ensures AllExact(v.bus.channels, v.joined, v.phase, v.posts)
    ensures Logged(v.joined, v.phase, v.posts, v.log) && Accounted(v.bus.channels, v.posts, v.log)
  {
    SendLogs(w.joined, left, w.posts, w.log);
    SendStreams(w.bus.channels, w.joined, left, w.posts, w.log);
  }

  lemma SendInv<M>(w: World<M>, v: World<M>, left: seq<nat>)
    requires Inv(w) && w.phase == Sending(left) && left != [] && w.posts != [] && left[0] in w.bus.channels
    requires v == Sent(w, left[0], w.posts[|w.posts| - 1].msg)
    ensures Inv(v)
  {
    SendPlaces(w, v, left);
    SendHistory(w, v, left);
    SendBinds(w.bus, w.flat, w.joined, left[0], w.posts[|w.posts| - 1].msg);
  }

  lemma SendKeeps<M>(w: World<M>)
    requires Inv(w) && w.phase.Sending? && w.phase.left != []
    ensures Inv(ApplyAdvance(w))
  {
    NextIsKnown(w);
    var id, msg := w.phase.left[0], w.posts[|w.posts| - 1].msg;
    SendInv(w, Sent(w, id, msg), w.phase.left);
    SendIs(w, id, msg);
  }

  lemma SendIs<M>(w: World<M>, id: nat, msg: M)
    requires w.phase.Sending? && w.phase.left != [] && w.posts != []
    requires id == w.phase.left[0] && id in w.bus.channels && msg == w.posts[|w.posts| - 1].msg
    ensures ApplyAdvance(w) == Sent(w, id, msg)
  {
  }

  lemma SendBinds<M>(b: Bus<M>, f: Flat, joined: map<nat, Joined>, id: nat, msg: M)
    requires Bound(b, f, joined) && id in b.channels
    ensures Bound(b.(channels := b.channels[id := Put(b.channels[id], msg)]), f, joined)
  {
  }

  lemma FinishKeeps<M>(w: World<M>)
    requires Inv(w) && w.phase.Sending? && w.phase.left == []
    ensures Inv(ApplyAdvance(w))
  {
  }

  // ---------- the readers ----------

  lemma ReadStreams<M>(channels: map<nat, Channel<M>>, joined: map<nat, Joined>, phase: Phase<M>,
                       posts: seq<Post<M>>, log: seq<Delivery>, id: nat)
    requires id in channels && channels[id].items != []
    requires AllExact(channels, joined, phase, posts) && Accounted(channels, posts, log)
    ensures var after := channels[id := AfterRead(channels[id])];
            AllExact(after, joined, phase, posts) && Accounted(after, posts, log)
  {
    var after, c := channels[id := AfterRead(channels[id])], channels[id];
    assert c.taken + [c.items[0]] + c.items[1..] == c.taken + c.items;
    forall x | x in channels ensures Exact(after, joined, phase, posts, x) {
      assert Exact(channels, joined, phase, posts, x);
    }
  }

  lemma ReadAims<M>(b: Bus<M>, joined: map<nat, Joined>, phase: Phase<M>, posts: seq<Post<M>>, id: nat)
    requires id in b.channels && b.channels[id].items != [] && PhaseOk(b, joined, phase, posts)
    ensures PhaseOk(b.(channels := b.channels[id := AfterRead(b.channels[id])]), joined, phase, posts)
  {
  }

  lemma ReadKeeps<M>(w: World<M>, id: nat)
    requires Inv(w)
    ensures Inv(ApplyRead(w, id))
  {
    if id in w.bus.channels && w.bus.channels[id].open && w.bus.channels[id].items != [] {
      ReadStreams(w.bus.channels, w.joined, w.phase, w.posts, w.log, id);
      ReadAims(w.bus, w.joined, w.phase, w.posts, id);
    }
  }

  lemma CloseKeeps<M>(w: World<M>, id: nat)
    requires Inv(w)
    ensures Inv(ApplyClose(w, id))
  {
    if id in w.bus.channels {
      var after := ApplyClose(w, id);
      forall x | x in w.bus.channels
        ensures Exact(after.bus.channels, w.joined, w.phase, w.posts, x) && Aimed(after.bus, w.joined, w.phase, x)
      {
        assert Exact(w.bus.channels, w.joined, w.phase, w.posts, x);
        assert w.phase.Reserving? ==> Aimed(w.bus, w.joined, w.phase, x);
      }
    }
  }

  // ---------- whole runs ----------

  lemma AdvanceKeeps<M>(w: World<M>)
    requires Inv(w)
    ensures Inv(ApplyAdvance(w))
  {
    match w.phase {
      case Idle =>
      case Reserving(_, todo, _, _) => if todo == [] { CommitKeeps(w); } else { ReserveKeeps(w); }
      case Sending(left) => if left == [] { FinishKeeps(w); } else { SendKeeps(w); }
    }
  }

  lemma ApplyKeeps<M>(w: World<M>, e: Event<M>)
    requires Inv(w)
    ensures Inv(Apply(w, e))
  {
    match e {
      case Subscribe(pattern) => if w.phase.Idle? { SubscribeKeeps(w, pattern); }
      case SubscribeGroup(pattern, group) => if w.phase.Idle? { SubscribeGroupKeeps(w, pattern, group); }
      case Dispatch(subject, msg) => if w.phase.Idle? { DispatchKeeps(w, subject, msg); }
      case Advance => AdvanceKeeps(w);
      case Read(id) => ReadKeeps(w, id);
      case Close(id) => CloseKeeps(w, id);
    }
  }

  lemma StartInv<M>()
    ensures Inv(Start<M>())
  {
  }

  lemma {:induction false} RunKeeps<M>(events: seq<Event<M>>)
    ensures Inv(Run(Start(), events))
  {
    if events == [] {
      StartInv<M>();
    } else {
      RunKeeps(events[..|events| - 1]);
      ApplyKeeps(Run(Start(), events[..|events| - 1]), events[|events| - 1]);
    }
  }

  /** Whole-run fanout exactness: at every moment, what an open fanout subscriber has read, followed
      by what is queued for it and by the message it is about to be sent, if the actor is at that, is
      exactly the accepted messages since it subscribed that match, in order, whatever else happened. */
  lemma {:induction false} FanoutIsExact<M>(events: seq<Event<M>>, id: nat)
    requires var w := Run(Start(), events);
             id in w.bus.channels && w.bus.channels[id].open && id in w.joined && w.joined[id].group.None?
    ensures var w := Run(Start(), events); var c := w.bus.channels[id];
            && c.taken + c.items + Pending(w.phase, w.posts, id)
               == Matching(w.posts, w.joined[id].since, w.joined[id].pattern)
            && (w.phase.Idle? ==> c.taken + c.items == Matching(w.posts, w.joined[id].since, w.joined[id].pattern))
  {
    RunKeeps(events);
    var w := Run(Start(), events);
    assert Exact(w.bus.channels, w.joined, w.phase, w.posts, id);
    var c := w.bus.channels[id];
    assert c.taken + c.items + [] == c.taken + c.items;
  }

  /** No queue exceeds its capacity, and exactly the subscribers in the list have a sender; every
      subscriber whose receiver is still there is in the list. */
  lemma {:induction false} QueuesAndSendersAgree<M>(events: seq<Event<M>>)
    ensures var w := Run(Start(), events);
            && Refines(w.bus.table, w.flat)
            && (forall id :: id in w.bus.channels ==> |w.bus.channels[id].items| <= 128)
            && (forall id :: id in w.bus.senders <==> Listed(w.flat, id))
            && (forall id :: id in w.bus.channels && w.bus.channels[id].open ==> id in w.bus.senders)
  {
    RunKeeps(events);
  }

  /** What an open subscriber has read and still has queued is what the log says it was sent; and no
      accepted message is sent twice to one subscriber or to two members of one group. */
  lemma {:induction false} AtMostOnce<M>(events: seq<Event<M>>)
    ensures var w := Run(Start(), events);
            && Accounted(w.bus.channels, w.posts, w.log)
            && (forall i, j :: 0 <= i < j < |w.log| && w.log[i].post == w.log[j].post ==>
                  Apart(w.joined, w.log[i].id, w.log[j].id))
  {
    RunKeeps(events);
  }
}
