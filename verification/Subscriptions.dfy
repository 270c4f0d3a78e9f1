/** The routing table refines a flat list of subscriptions. */
module Subscriptions {
  import opened Options
  import opened Sequences
  import opened Subjects
  import opened RoutingTable

  datatype Sub = Sub(id: nat, pattern: string, group: Option<string>)

  /** Who subscribed to what, in order, and the pattern each queue was declared with. */
  datatype Flat = Flat(subs: seq<Sub>, queues: map<string, string>, nextId: nat)

  datatype Op =
    | OpFanout(pattern: string)
    | OpBind(pattern: string, queue: string)
    | OpConsume(queue: string)
    | OpRoute(subject: string)
    | OpRemove(id: nat)

  function Others(subs: seq<Sub>, id: nat): seq<Sub> {
    if subs == [] then []
    else Others(subs[..|subs| - 1], id) + if subs[|subs| - 1].id != id then [subs[|subs| - 1]] else []
  }

  function FlatStep(f: Flat, op: Op): Flat {
    match op
    case OpFanout(p) => f.(subs := f.subs + [Sub(f.nextId, p, None)], nextId := f.nextId + 1)
    case OpBind(p, q) => if q in f.queues then f else f.(queues := f.queues[q := p])
    case OpConsume(q) =>
      if q in f.queues
      then f.(subs := f.subs + [Sub(f.nextId, f.queues[q], Some(q))], nextId := f.nextId + 1)
      else f.(nextId := f.nextId + 1)
    case OpRoute(_) => f
    case OpRemove(id) => f.(subs := Others(f.subs, id))
  }

  function TableStep(t: Table, op: Op): Table {
    match op
    case OpFanout(p) => AddFanout(t, p)
    case OpBind(p, q) =>
      (match BindQueue(t, p, q)
       case Ok(bound) => bound
       case Err(_) => t)
    case OpConsume(q) => AddConsumer(t, q).0
    case OpRoute(subject) => t.(bindings := AllTurned(t.bindings, subject))
    case OpRemove(id) => RemoveConsumer(t, id)
  }

  predicate Belongs(sub: Sub, pattern: string, group: Option<string>) {
    sub.pattern == pattern && sub.group == group
  }

  /** The subscribers with this pattern and group, in order. */
  function IdsOf(subs: seq<Sub>, pattern: string, group: Option<string>): seq<nat> {
    if subs == [] then []
    else
      var last := subs[|subs| - 1];
      IdsOf(subs[..|subs| - 1], pattern, group) + if Belongs(last, pattern, group) then [last.id] else []
  }

  predicate SubOk(f: Flat, sub: Sub) {
    sub.id < f.nextId && (sub.group.Some? ==>
      sub.group.value in f.queues && f.queues[sub.group.value] == sub.pattern)
  }

  /** Identifiers are handed out in order and never twice. */
  ghost predicate SubsOk(f: Flat) {
    && (forall i :: 0 <= i < |f.subs| ==> SubOk(f, f.subs[i]))
    && (forall i, j :: 0 <= i < j < |f.subs| ==> f.subs[i].id < f.subs[j].id)
  }

  predicate BindingOk(f: Flat, b: Binding) {
    && b.consumers == IdsOf(f.subs, b.pattern, b.queue) && (b.queue.None? ==> b.consumers != [])
    && (b.queue.Some? ==> b.queue.value in f.queues && f.queues[b.queue.value] == b.pattern)
  }

  /** One binding per fanout pattern and per queue. */
  ghost predicate KeysDistinct(bs: seq<Binding>) {
    forall i, j :: 0 <= i < j < |bs| ==> !HasKey(bs[j], bs[i].pattern, bs[i].queue)
  }

  ghost predicate Has(bs: seq<Binding>, pattern: string, queue: Option<string>) {
    exists i :: 0 <= i < |bs| && HasKey(bs[i], pattern, queue)
  }

  ghost predicate Complete(bs: seq<Binding>, f: Flat) {
    && (forall q :: q in f.queues ==> Has(bs, f.queues[q], Some(q)))
    && (forall i :: 0 <= i < |f.subs| && f.subs[i].group.None? ==> Has(bs, f.subs[i].pattern, None))
  }

  ghost predicate Refines(t: Table, f: Flat) {
    && t.nextId == f.nextId && SubsOk(f)
    && (forall i :: 0 <= i < |t.bindings| ==> BindingOk(f, t.bindings[i]))
    && KeysDistinct(t.bindings) && Complete(t.bindings, f)
  }

  lemma {:induction false} IdsOfAppend(subs: seq<Sub>, sub: Sub, pattern: string, group: Option<string>)
    ensures IdsOf(subs + [sub], pattern, group)
         == IdsOf(subs, pattern, group) + if Belongs(sub, pattern, group) then [sub.id] else []
  {
  }

  lemma {:induction false} IdsOfMembers(subs: seq<Sub>, pattern: string, group: Option<string>)
    ensures forall id :: id in IdsOf(subs, pattern, group) <==>
              exists i :: 0 <= i < |subs| && subs[i].id == id && Belongs(subs[i], pattern, group)
  {
    if subs != [] {
      var front, last := subs[..|subs| - 1], |subs| - 1;
      IdsOfMembers(front, pattern, group);
      forall id
        ensures id in IdsOf(subs, pattern, group) <==>
                exists i :: 0 <= i < |subs| && subs[i].id == id && Belongs(subs[i], pattern, group)
      {
        if id in IdsOf(front, pattern, group) {
          var i :| 0 <= i < |front| && front[i].id == id && Belongs(front[i], pattern, group);
          assert subs[i] == front[i];
        } else {
          assert forall i :: 0 <= i < last ==> front[i] == subs[i];
        }
      }
    }
  }

  lemma {:induction false} NobodyBelongs(subs: seq<Sub>, pattern: string, group: Option<string>)
    requires forall i :: 0 <= i < |subs| ==> !Belongs(subs[i], pattern, group)
    ensures IdsOf(subs, pattern, group) == []
  {
    if subs != [] {
      NobodyBelongs(subs[..|subs| - 1], pattern, group);
    }
  }

  lemma {:induction false} IdsOfOthers(subs: seq<Sub>, id: nat, pattern: string, group: Option<string>)
    ensures IdsOf(Others(subs, id), pattern, group) == Without(IdsOf(subs, pattern, group), id)
  {
    if subs != [] {
      var front, last := subs[..|subs| - 1], subs[|subs| - 1];
      IdsOfOthers(front, id, pattern, group);
      IdsOfAppend(Others(front, id), last, pattern, group);
      WithoutAppend(IdsOf(front, pattern, group), last.id, id);
      assert last.id == id ==> Others(subs, id) == Others(front, id);
      assert !Belongs(last, pattern, group) ==> IdsOf(subs, pattern, group) == IdsOf(front, pattern, group);
    }
  }

  lemma {:induction false} WithoutAppend(ids: seq<nat>, x: nat, id: nat)
    ensures Without(ids + [x], id) == Without(ids, id) + if x != id then [x] else []
  {
  }

  /** A subscriber joins the binding found under its key, or a new one. */
  lemma JoinedRefines(t: Table, f: Flat, sub: Sub, bs: seq<Binding>, k: nat)
    requires Refines(t, f) && sub.id == f.nextId && SubOk(f.(nextId := f.nextId + 1), sub)
    requires k < |t.bindings| && HasKey(t.bindings[k], sub.pattern, sub.group)
    requires t.bindings[k].pattern == sub.pattern
    requires bs == t.bindings[k := WithConsumer(t.bindings[k], sub.id)]
    ensures Refines(Table(bs, t.nextId + 1), f.(subs := f.subs + [sub], nextId := f.nextId + 1))
  {
    var g := f.(subs := f.subs + [sub], nextId := f.nextId + 1);
    forall i | 0 <= i < |bs| ensures BindingOk(g, bs[i]) {
      var b := t.bindings[i];
      assert BindingOk(f, b);
      IdsOfAppend(f.subs, sub, b.pattern, b.queue);
      assert i < k ==> !HasKey(t.bindings[k], b.pattern, b.queue);
      assert k < i ==> !HasKey(b, t.bindings[k].pattern, t.bindings[k].queue);
    }
    SubsAppend(f, sub);
    CompleteAfter(t.bindings, bs, f, g);
    assert HasKey(bs[k], sub.pattern, sub.group);
  }

  lemma SubsAppend(f: Flat, sub: Sub)
    requires SubsOk(f) && sub.id == f.nextId && SubOk(f.(nextId := f.nextId + 1), sub)
    ensures SubsOk(f.(subs := f.subs + [sub], nextId := f.nextId + 1))
  {
  }

  /** Bindings that keep their keys serve whoever was served. */
  lemma CompleteAfter(bs: seq<Binding>, cs: seq<Binding>, f: Flat, g: Flat)
    requires Complete(bs, f) && |cs| >= |bs|
    requires forall i :: 0 <= i < |bs| ==> cs[i].pattern == bs[i].pattern && cs[i].queue == bs[i].queue
    requires forall q :: q in g.queues ==>
               ((q in f.queues && g.queues[q] == f.queues[q]) || Has(cs, g.queues[q], Some(q)))
    requires forall i :: 0 <= i < |g.subs| && g.subs[i].group.None? ==>
               g.subs[i] in f.subs || Has(cs, g.subs[i].pattern, None)
    ensures Complete(cs, g)
  {
  }

  /** A binding nobody is served by yet is added at the end. */
  lemma AddedRefines(t: Table, f: Flat, b: Binding, g: Flat)
    requires Refines(t, f) && SubsOk(g) && BindingOk(g, b)
    requires forall i :: 0 <= i < |t.bindings| ==>
               BindingOk(g, t.bindings[i]) && !HasKey(b, t.bindings[i].pattern, t.bindings[i].queue)
    requires forall q :: q in g.queues ==>
               ((q in f.queues && g.queues[q] == f.queues[q]) || (b.queue == Some(q) && b.pattern == g.queues[q]))
    requires forall i :: 0 <= i < |g.subs| && g.subs[i].group.None? ==>
               g.subs[i] in f.subs || HasKey(b, g.subs[i].pattern, None)
    ensures Refines(Table(t.bindings + [b], g.nextId), g)
  {
    var bs := t.bindings + [b];
    assert bs[|t.bindings|] == b;
    CompleteAfter(t.bindings, bs, f, g);
  }

  lemma {:induction false} FoundOrNot(bs: seq<Binding>, pattern: string, queue: Option<string>)
    ensures Find(bs, pattern, queue) < |bs| <==> Has(bs, pattern, queue)
    ensures Find(bs, pattern, queue) == |bs| ==>
              forall i :: 0 <= i < |bs| ==> !HasKey(bs[i], pattern, queue)
  {
  }

  lemma FanoutRefines(t: Table, f: Flat, p: string)
    requires Refines(t, f)
    ensures Refines(AddFanout(t, p), FlatStep(f, OpFanout(p)))
  {
    var k, sub := Find(t.bindings, p, None), Sub(f.nextId, p, None);
    if k < |t.bindings| {
      JoinedRefines(t, f, sub, t.bindings[k := WithConsumer(t.bindings[k], sub.id)], k);
    } else {
      NewPatternRefines(t, f, p);
    }
  }

  lemma {:induction false} NobodyHas(t: Table, f: Flat, p: string)
    requires Refines(t, f) && Find(t.bindings, p, None) == |t.bindings|
    ensures IdsOf(f.subs, p, None) == []
  {
    FoundOrNot(t.bindings, p, None);
    forall i | 0 <= i < |f.subs| ensures !Belongs(f.subs[i], p, None) {
      assert f.subs[i].group.None? ==> Has(t.bindings, f.subs[i].pattern, None);
    }
    NobodyBelongs(f.subs, p, None);
  }

  lemma {:induction false} NewPatternRefines(t: Table, f: Flat, p: string)
    requires Refines(t, f) && Find(t.bindings, p, None) == |t.bindings|
    ensures Refines(AddFanout(t, p), FlatStep(f, OpFanout(p)))
  {
    var g, b := FlatStep(f, OpFanout(p)), Binding(p, None, [f.nextId], 0);
    NewPatternOk(t, f, p);
    forall i | 0 <= i < |t.bindings|
      ensures BindingOk(g, t.bindings[i]) && !HasKey(b, t.bindings[i].pattern, t.bindings[i].queue)
    {
      OtherPatternKept(t, f, p, i);
    }
    AddedRefines(t, f, b, g);
  }

  lemma {:induction false} NewPatternOk(t: Table, f: Flat, p: string)
    requires Refines(t, f) && Find(t.bindings, p, None) == |t.bindings|
    ensures SubsOk(FlatStep(f, OpFanout(p)))
    ensures BindingOk(FlatStep(f, OpFanout(p)), Binding(p, None, [f.nextId], 0))
  {
    var sub := Sub(f.nextId, p, None);
    SubsAppend(f, sub);
    NobodyHas(t, f, p);
    IdsOfAppend(f.subs, sub, p, None);
    assert [] + [f.nextId] == [f.nextId];
  }

  lemma {:induction false} OtherPatternKept(t: Table, f: Flat, p: string, i: nat)
    requires Refines(t, f) && Find(t.bindings, p, None) == |t.bindings| && i < |t.bindings|
    ensures BindingOk(FlatStep(f, OpFanout(p)), t.bindings[i])
    ensures !HasKey(Binding(p, None, [f.nextId], 0), t.bindings[i].pattern, t.bindings[i].queue)
  {
    assert BindingOk(f, t.bindings[i]) && !HasKey(t.bindings[i], p, None);
    IdsOfAppend(f.subs, Sub(f.nextId, p, None), t.bindings[i].pattern, t.bindings[i].queue);
  }

  lemma {:induction false} QueueKnown(t: Table, f: Flat, p: string, q: string)
    requires Refines(t, f)
    ensures Find(t.bindings, p, Some(q)) < |t.bindings| <==> q in f.queues
    ensures q in f.queues ==> t.bindings[Find(t.bindings, p, Some(q))].pattern == f.queues[q]
  {
  }

  /** Declaring a queue succeeds exactly when it is new or has this pattern already. */
  lemma BindRefines(t: Table, f: Flat, p: string, q: string)
    requires Refines(t, f)
    ensures Refines(TableStep(t, OpBind(p, q)), FlatStep(f, OpBind(p, q)))
    ensures BindQueue(t, p, q).Ok? <==> (q in f.queues ==> f.queues[q] == p)
    ensures BindQueue(t, p, q).Err? ==> BindQueue(t, p, q).error == QueueTaken(f.queues[q])
  {
    QueueKnown(t, f, p, q);
    FoundOrNot(t.bindings, p, Some(q));
    if q !in f.queues {
      var g, b := FlatStep(f, OpBind(p, q)), Binding(p, Some(q), [], 0);
      forall i | 0 <= i < |f.subs| ensures !Belongs(f.subs[i], p, Some(q)) && SubOk(g, f.subs[i]) {
        assert SubOk(f, f.subs[i]);
      }
      NobodyBelongs(f.subs, p, Some(q));
      forall i | 0 <= i < |t.bindings|
        ensures BindingOk(g, t.bindings[i]) && !HasKey(b, t.bindings[i].pattern, t.bindings[i].queue)
      {
        assert BindingOk(f, t.bindings[i]) && !HasKey(t.bindings[i], p, Some(q));
      }
      AddedRefines(t, f, b, g);
    }
  }

  lemma ConsumeRefines(t: Table, f: Flat, q: string)
    requires Refines(t, f)
    ensures Refines(AddConsumer(t, q).0, FlatStep(f, OpConsume(q)))
    ensures AddConsumer(t, q).1 == if q in f.queues then Ok(f.nextId) else Err(QueueNotFound)
  {
    QueueKnown(t, f, "", q);
    var k := Find(t.bindings, "", Some(q));
    if q in f.queues {
      JoinedRefines(t, f, Sub(f.nextId, f.queues[q], Some(q)),
                    t.bindings[k := WithConsumer(t.bindings[k], f.nextId)], k);
    } else {
      SkippedRefines(t, f);
    }
  }

  /** An identifier that is used up without a subscription. */
  lemma SkippedRefines(t: Table, f: Flat)
    requires Refines(t, f)
    ensures Refines(t.(nextId := t.nextId + 1), f.(nextId := f.nextId + 1))
  {
    var g := f.(nextId := f.nextId + 1);
    forall i | 0 <= i < |g.subs| ensures SubOk(g, g.subs[i]) {
      assert SubOk(f, f.subs[i]);
    }
    forall i | 0 <= i < |t.bindings| ensures BindingOk(g, t.bindings[i]) {
      assert BindingOk(f, t.bindings[i]);
    }
  }

  lemma RouteRefines(t: Table, f: Flat, subject: string)
    requires Refines(t, f)
    ensures Refines(TableStep(t, OpRoute(subject)), f)
  {
    var bs := AllTurned(t.bindings, subject);
    forall i | 0 <= i < |bs| ensures BindingOk(f, bs[i]) {
      assert BindingOk(f, t.bindings[i]);
    }
    CompleteAfter(t.bindings, bs, f, f);
  }

  /** The bindings left over are, in order, those worth keeping. */
  lemma {:induction false} RetainedKeeps(bs: seq<Binding>)
    ensures forall i :: 0 <= i < |Retained(bs)| ==> Kept(Retained(bs)[i]) && Retained(bs)[i] in bs
    ensures forall i :: 0 <= i < |bs| && Kept(bs[i]) ==> bs[i] in Retained(bs)
    ensures KeysDistinct(bs) ==> KeysDistinct(Retained(bs))
  {
    if bs != [] {
      var front, last := bs[..|bs| - 1], bs[|bs| - 1];
      RetainedKeeps(front);
      assert bs == front + [last];
      if KeysDistinct(bs) {
        forall i | 0 <= i < |Retained(front)|
          ensures !HasKey(last, Retained(front)[i].pattern, Retained(front)[i].queue)
        {
          assert Retained(front)[i] in front;
          var j :| 0 <= j < |front| && front[j] == Retained(front)[i];
          assert bs[j] == front[j] && bs[|bs| - 1] == last;
        }
      }
    }
  }

  lemma {:induction false} OthersMembers(subs: seq<Sub>, id: nat)
    ensures forall sub :: sub in Others(subs, id) <==> sub in subs && sub.id != id
  {
    if subs != [] {
      OthersMembers(subs[..|subs| - 1], id);
      assert subs == subs[..|subs| - 1] + [subs[|subs| - 1]];
    }
  }

  lemma {:induction false} OthersIncrease(subs: seq<Sub>, id: nat)
    requires forall i, j :: 0 <= i < j < |subs| ==> subs[i].id < subs[j].id
    ensures forall i, j :: 0 <= i < j < |Others(subs, id)| ==> Others(subs, id)[i].id < Others(subs, id)[j].id
  {
    if subs != [] {
      var front, last := subs[..|subs| - 1], subs[|subs| - 1];
      OthersIncrease(front, id);
      OthersMembers(front, id);
      forall i | 0 <= i < |Others(front, id)| ensures Others(front, id)[i].id < last.id {
        assert Others(front, id)[i] in front;
        var j :| 0 <= j < |front| && front[j] == Others(front, id)[i];
        assert subs[j] == front[j];
      }
    }
  }

  lemma {:induction false} WithoutBindingOk(f: Flat, g: Flat, b: Binding, id: nat)
    requires BindingOk(f, b) && g == f.(subs := Others(f.subs, id))
    requires Kept(b.(consumers := Without(b.consumers, id)))
    ensures BindingOk(g, b.(consumers := Without(b.consumers, id)))
  {
    IdsOfOthers(f.subs, id, b.pattern, b.queue);
  }

  lemma RemoveRefines(t: Table, f: Flat, id: nat)
    requires Refines(t, f)
    ensures Refines(RemoveConsumer(t, id), FlatStep(f, OpRemove(id)))
  {
    var g, all := FlatStep(f, OpRemove(id)), AllWithout(t.bindings, id);
    var bs := Retained(all);
    RemoveSubsOk(f, id);
    RetainedKeeps(all);
    forall i | 0 <= i < |bs| ensures BindingOk(g, bs[i]) {
      var j :| 0 <= j < |all| && all[j] == bs[i];
      WithoutBindingOk(f, g, t.bindings[j], id);
    }
    RemoveComplete(t, f, id);
  }

  lemma RemoveSubsOk(f: Flat, id: nat)
    requires SubsOk(f)
    ensures SubsOk(FlatStep(f, OpRemove(id)))
  {
    var g := FlatStep(f, OpRemove(id));
    OthersMembers(f.subs, id);
    OthersIncrease(f.subs, id);
    forall i | 0 <= i < |g.subs| ensures SubOk(g, g.subs[i]) {
      assert g.subs[i] in g.subs;
      var j :| 0 <= j < |f.subs| && f.subs[j] == g.subs[i];
      assert SubOk(f, f.subs[j]);
    }
  }

  lemma RemoveComplete(t: Table, f: Flat, id: nat)
    requires Refines(t, f)
    ensures Complete(RemoveConsumer(t, id).bindings, FlatStep(f, OpRemove(id)))
  {
    var g, all := FlatStep(f, OpRemove(id)), AllWithout(t.bindings, id);
    var bs := Retained(all);
    RetainedKeeps(all);
    OthersMembers(f.subs, id);
    forall q | q in g.queues ensures Has(bs, g.queues[q], Some(q)) {
      var i :| 0 <= i < |t.bindings| && HasKey(t.bindings[i], f.queues[q], Some(q));
      assert Kept(all[i]) && all[i] in bs;
      var j :| 0 <= j < |bs| && bs[j] == all[i];
      assert HasKey(bs[j], g.queues[q], Some(q));
    }
    forall i | 0 <= i < |g.subs| && g.subs[i].group.None? ensures Has(bs, g.subs[i].pattern, None) {
      assert g.subs[i] in g.subs;
      StillServed(t, f, id, g.subs[i]);
    }
  }

  lemma StillServed(t: Table, f: Flat, id: nat, sub: Sub)
    requires Refines(t, f) && sub in f.subs && sub.id != id && sub.group.None?
    ensures Has(Retained(AllWithout(t.bindings, id)), sub.pattern, None)
  {
    var all := AllWithout(t.bindings, id);
    var bs := Retained(all);
    RetainedKeeps(all);
    assert Has(t.bindings, sub.pattern, None);
    var i :| 0 <= i < |t.bindings| && HasKey(t.bindings[i], sub.pattern, None);
    assert BindingOk(f, t.bindings[i]) && Belongs(sub, t.bindings[i].pattern, t.bindings[i].queue);
    IdsOfMembers(f.subs, t.bindings[i].pattern, t.bindings[i].queue);
    assert sub.id in all[i].consumers && Kept(all[i]);
    var j :| 0 <= j < |bs| && bs[j] == all[i];
    assert HasKey(bs[j], sub.pattern, None);
  }

  lemma StepRefines(t: Table, f: Flat, op: Op)
    requires Refines(t, f)
    ensures Refines(TableStep(t, op), FlatStep(f, op))
  {
    match op {
      case OpFanout(p) => FanoutRefines(t, f, p);
      case OpBind(p, q) => BindRefines(t, f, p, q);
      case OpConsume(q) => ConsumeRefines(t, f, q);
      case OpRoute(subject) => RouteRefines(t, f, subject);
      case OpRemove(id) => RemoveRefines(t, f, id);
    }
  }

  function TableRun(t: Table, ops: seq<Op>): Table {
    if ops == [] then t else TableStep(TableRun(t, ops[..|ops| - 1]), ops[|ops| - 1])
  }

  function FlatRun(f: Flat, ops: seq<Op>): Flat {
    if ops == [] then f else FlatStep(FlatRun(f, ops[..|ops| - 1]), ops[|ops| - 1])
  }

  /** After any operations at all the table stands for the flat list. */
  lemma {:induction false} TableRefinesFlatList(ops: seq<Op>)
    ensures Refines(TableRun(Table([], 1), ops), FlatRun(Flat([], map[], 1), ops))
  {
    if ops != [] {
      var front := ops[..|ops| - 1];
      TableRefinesFlatList(front);
      StepRefines(TableRun(Table([], 1), front), FlatRun(Flat([], map[], 1), front), ops[|ops| - 1]);
    }
  }

  /** A queue that was declared keeps the pattern it was declared with. */
  lemma {:induction false} QueuePatternNeverChanges(f: Flat, ops: seq<Op>, q: string)
    requires q in f.queues
    ensures q in FlatRun(f, ops).queues && FlatRun(f, ops).queues[q] == f.queues[q]
  {
    if ops != [] {
      QueuePatternNeverChanges(f, ops[..|ops| - 1], q);
    }
  }

  ghost predicate Increasing(ids: seq<nat>) {
    forall i, j :: 0 <= i < j < |ids| ==> ids[i] < ids[j]
  }

  lemma {:induction false} IdsOfIncrease(subs: seq<Sub>, pattern: string, group: Option<string>)
    requires forall i, j :: 0 <= i < j < |subs| ==> subs[i].id < subs[j].id
    ensures Increasing(IdsOf(subs, pattern, group))
    ensures forall id :: id in IdsOf(subs, pattern, group) ==> id <= subs[|subs| - 1].id
  {
    if subs != [] {
      var front, last := subs[..|subs| - 1], subs[|subs| - 1];
      IdsOfIncrease(front, pattern, group);
      var ids := IdsOf(front, pattern, group);
      forall i | 0 <= i < |ids| ensures ids[i] < last.id {
        IdsOfMembers(front, pattern, group);
        assert ids[i] in ids;
        var m :| 0 <= m < |front| && front[m].id == ids[i];
        assert subs[m] == front[m];
      }
    }
  }

  /** No identifier belongs to two bindings. */
  lemma OneBindingEach(t: Table, f: Flat, i: nat, j: nat, id: nat)
    requires Refines(t, f) && i < j < |t.bindings|
    requires id in t.bindings[i].consumers
    ensures id !in t.bindings[j].consumers
  {
    var a, b := t.bindings[i], t.bindings[j];
    assert BindingOk(f, a) && BindingOk(f, b);
    IdsOfMembers(f.subs, a.pattern, a.queue);
    IdsOfMembers(f.subs, b.pattern, b.queue);
    var m :| 0 <= m < |f.subs| && f.subs[m].id == id && Belongs(f.subs[m], a.pattern, a.queue);
    forall n | 0 <= n < |f.subs| && f.subs[n].id == id ensures !Belongs(f.subs[n], b.pattern, b.queue) {
      assert n == m;
      assert !HasKey(b, a.pattern, a.queue);
    }
  }

  /** Who is selected, binding by binding. */
  lemma {:induction false} TargetsByBinding(bs: seq<Binding>, subject: string)
    ensures forall id :: id in AllTargets(bs, subject) <==>
              exists i :: 0 <= i < |bs| && id in Targets(bs[i], subject)
  {
    if bs != [] {
      var front, last := bs[..|bs| - 1], bs[|bs| - 1];
      TargetsByBinding(front, subject);
      assert bs == front + [last];
      forall id
        ensures id in AllTargets(bs, subject) <==> exists i :: 0 <= i < |bs| && id in Targets(bs[i], subject)
      {
        if id in AllTargets(front, subject) {
          var i :| 0 <= i < |front| && id in Targets(front[i], subject);
          assert bs[i] == front[i];
        }
        assert bs[|front|] == last;
        forall i | 0 <= i < |front| && id in Targets(bs[i], subject) ensures id in AllTargets(front, subject) {
          assert front[i] == bs[i];
        }
      }
    }
  }

  lemma TargetsDistinct(f: Flat, b: Binding, subject: string)
    requires SubsOk(f) && BindingOk(f, b)
    ensures Distinct(Targets(b, subject))
    ensures forall id :: id in Targets(b, subject) ==> id in b.consumers
  {
    IdsOfIncrease(f.subs, b.pattern, b.queue);
  }

  /** No target of a binding was a target of one before it. */
  lemma {:induction false} TargetsApart(t: Table, f: Flat, subject: string, n: nat, id: nat)
    requires Refines(t, f) && n < |t.bindings| && id in AllTargets(t.bindings[..n], subject)
    ensures id !in Targets(t.bindings[n], subject)
  {
    TargetsByBinding(t.bindings[..n], subject);
    var i :| 0 <= i < n && id in Targets(t.bindings[..n][i], subject);
    assert BindingOk(f, t.bindings[i]) && BindingOk(f, t.bindings[n]);
    TargetsDistinct(f, t.bindings[i], subject);
    TargetsDistinct(f, t.bindings[n], subject);
    OneBindingEach(t, f, i, n, id);
  }

  lemma {:induction false} NobodyTwice(t: Table, f: Flat, subject: string, n: nat)
    requires Refines(t, f) && n <= |t.bindings|
    ensures Distinct(AllTargets(t.bindings[..n], subject))
  {
    if n > 0 {
      NobodyTwice(t, f, subject, n - 1);
      OneMoreDistinct(t, f, subject, n);
    }
  }

  lemma {:induction false} OneMoreDistinct(t: Table, f: Flat, subject: string, n: nat)
    requires Refines(t, f) && 0 < n <= |t.bindings| && Distinct(AllTargets(t.bindings[..n - 1], subject))
    ensures Distinct(AllTargets(t.bindings[..n], subject))
  {
    var front, b := t.bindings[..n - 1], t.bindings[n - 1];
    assert BindingOk(f, b) && t.bindings[..n][..n - 1] == front;
    TargetsDistinct(f, b, subject);
    forall id | id in AllTargets(front, subject) ensures id !in Targets(b, subject) {
      TargetsApart(t, f, subject, n - 1, id);
    }
    DistinctConcat(AllTargets(front, subject), Targets(b, subject));
  }

  /** The member of a group whose turn it is. */
  function Turn(t: Table, f: Flat, q: string): Option<nat>
    requires q in f.queues
  {
    var members, k := IdsOf(f.subs, f.queues[q], Some(q)), Find(t.bindings, "", Some(q));
    if members == [] || k == |t.bindings| then None else Some(members[t.bindings[k].rr % |members|])
  }

  /** Selected for `subject`: a fanout subscriber whose pattern matches, or the member of a matching
      group whose turn it is. */
  ghost predicate Selected(t: Table, f: Flat, subject: string, sub: Sub) {
    && Matches(Split(sub.pattern), Split(subject))
    && (sub.group.Some? ==> sub.group.value in f.queues && Turn(t, f, sub.group.value) == Some(sub.id))
  }

  lemma {:induction false} FoundAt(bs: seq<Binding>, pattern: string, queue: Option<string>, i: nat)
    requires KeysDistinct(bs) && i < |bs| && HasKey(bs[i], pattern, queue)
    ensures Find(bs, pattern, queue) == i
  {
  }

  lemma SelectedByBinding(t: Table, f: Flat, subject: string, sub: Sub, i: nat)
    requires Refines(t, f) && sub in f.subs && i < |t.bindings|
    requires Belongs(sub, t.bindings[i].pattern, t.bindings[i].queue)
    ensures sub.id in Targets(t.bindings[i], subject) <==> Selected(t, f, subject, sub)
  {
    var b := t.bindings[i];
    assert BindingOk(f, b);
    IdsOfMembers(f.subs, b.pattern, b.queue);
    if b.queue.Some? {
      var q := b.queue.value;
      QueueKnown(t, f, "", q);
      FoundAt(t.bindings, "", Some(q), i);
    }
  }

  /** `route` selects exactly the matching fanout subscribers and one member of every matching
      group that has any, and nobody twice. */
  lemma {:induction false} RouteIsExact(t: Table, f: Flat, subject: string)
    requires Refines(t, f)
    ensures Distinct(AllTargets(t.bindings, subject))
    ensures forall sub :: sub in f.subs ==>
              (sub.id in AllTargets(t.bindings, subject) <==> Selected(t, f, subject, sub))
    ensures forall id :: id in AllTargets(t.bindings, subject) ==> exists sub :: sub in f.subs && sub.id == id
  {
    assert t.bindings[..|t.bindings|] == t.bindings;
    NobodyTwice(t, f, subject, |t.bindings|);
    forall sub | sub in f.subs
      ensures sub.id in AllTargets(t.bindings, subject) <==> Selected(t, f, subject, sub)
    {
      RouteSelects(t, f, subject, sub);
    }
    forall id | id in AllTargets(t.bindings, subject) ensures exists sub :: sub in f.subs && sub.id == id {
      TargetsAreSubscribers(t, f, subject, id);
    }
  }

  lemma {:induction false} TargetsAreSubscribers(t: Table, f: Flat, subject: string, id: nat)
    requires Refines(t, f) && id in AllTargets(t.bindings, subject)
    ensures exists sub :: sub in f.subs && sub.id == id
  {
    TargetsByBinding(t.bindings, subject);
    var i :| 0 <= i < |t.bindings| && id in Targets(t.bindings[i], subject);
    assert BindingOk(f, t.bindings[i]);
    IdsOfMembers(f.subs, t.bindings[i].pattern, t.bindings[i].queue);
    TargetsDistinct(f, t.bindings[i], subject);
    assert id in IdsOf(f.subs, t.bindings[i].pattern, t.bindings[i].queue);
    var m :| 0 <= m < |f.subs| && f.subs[m].id == id;
    assert f.subs[m] in f.subs;
  }

  lemma {:induction false} RouteSelects(t: Table, f: Flat, subject: string, sub: Sub)
    requires Refines(t, f) && sub in f.subs
    ensures sub.id in AllTargets(t.bindings, subject) <==> Selected(t, f, subject, sub)
  {
    TargetsByBinding(t.bindings, subject);
    var i := BindingOf(t, f, sub);
    SelectedByBinding(t, f, subject, sub, i);
    forall j | 0 <= j < |t.bindings| && j != i ensures sub.id !in Targets(t.bindings[j], subject) {
      if i < j { OneBindingEach(t, f, i, j, sub.id); } else { NotInEarlier(t, f, j, i, sub.id); }
    }
  }

  lemma NotInEarlier(t: Table, f: Flat, j: nat, i: nat, id: nat)
    requires Refines(t, f) && j < i < |t.bindings| && id in t.bindings[i].consumers
    ensures id !in t.bindings[j].consumers
  {
    if id in t.bindings[j].consumers {
      OneBindingEach(t, f, j, i, id);
    }
  }

  /** Every subscriber is in a binding. */
  lemma BindingOf(t: Table, f: Flat, sub: Sub) returns (i: nat)
    requires Refines(t, f) && sub in f.subs
    ensures i < |t.bindings| && Belongs(sub, t.bindings[i].pattern, t.bindings[i].queue)
    ensures sub.id in t.bindings[i].consumers
  {
    var m :| 0 <= m < |f.subs| && f.subs[m] == sub;
    assert SubOk(f, f.subs[m]);
    assert Has(t.bindings, sub.pattern, sub.group);
    i :| 0 <= i < |t.bindings| && HasKey(t.bindings[i], sub.pattern, sub.group);
    assert BindingOk(f, t.bindings[i]);
    IdsOfMembers(f.subs, t.bindings[i].pattern, t.bindings[i].queue);
  }

  /** A matching group with members has exactly one of them selected. */
  lemma {:induction false} GroupsGetOneEach(t: Table, f: Flat, subject: string, q: string)
    requires Refines(t, f) && q in f.queues && Matches(Split(f.queues[q]), Split(subject))
    requires IdsOf(f.subs, f.queues[q], Some(q)) != []
    ensures Turn(t, f, q).Some?
    ensures forall id :: id in IdsOf(f.subs, f.queues[q], Some(q)) ==>
              (id in AllTargets(t.bindings, subject) <==> Turn(t, f, q) == Some(id))
  {
    RouteIsExact(t, f, subject);
    QueueKnown(t, f, "", q);
    IdsOfMembers(f.subs, f.queues[q], Some(q));
    forall id | id in IdsOf(f.subs, f.queues[q], Some(q))
      ensures id in AllTargets(t.bindings, subject) <==> Turn(t, f, q) == Some(id)
    {
      var m :| 0 <= m < |f.subs| && f.subs[m].id == id && Belongs(f.subs[m], f.queues[q], Some(q));
      assert f.subs[m] in f.subs;
    }
  }
}
