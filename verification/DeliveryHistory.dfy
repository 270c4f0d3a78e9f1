/** What a subscriber's own events do: it is open from its subscription until its receiver goes away,
    and reads the accepted matching messages one after the other. */
module DeliveryHistory {
  import opened Options
  import opened Subjects
  import opened RoutingTable
  import opened Subscriptions
  import opened LocalDelivery
  import opened DeliveryRuns

  /** The subscriber is known under what it asked for, and its receiver is there. */
  ghost predicate Opened<M>(w: World<M>, id: nat, j: Joined, open: bool) {
    id in w.joined && w.joined[id] == j && id in w.bus.channels && w.bus.channels[id].open == open
  }

  /** A fanout subscription always succeeds, under an identifier that is new. */
  lemma SubscribeOpens<M>(w: World<M>, pattern: string)
    requires Inv(w) && w.phase.Idle?
    ensures w.flat.nextId !in w.joined
    ensures var v := Apply(w, Subscribe(pattern));
            Opened(v, w.flat.nextId, Joined(pattern, None, |w.posts|), true) && v.bus.channels[w.flat.nextId].items == []
  {
  }

  /** A queue can be joined by a subscriber with this pattern. */
  predicate Joinable(f: Flat, pattern: string, group: string) {
    group in f.queues ==> f.queues[group] == pattern
  }

  /** A group subscription succeeds exactly when the queue is new or has the same pattern; otherwise
      nothing changes. */
  lemma SubscribeGroupOpens<M>(w: World<M>, pattern: string, group: string)
    requires Inv(w) && w.phase.Idle?
    ensures w.flat.nextId !in w.joined
    ensures var v := Apply(w, SubscribeGroup(pattern, group));
            if Joinable(w.flat, pattern, group)
            then Opened(v, w.flat.nextId, Joined(pattern, Some(group), |w.posts|), true)
                 && v.bus.channels[w.flat.nextId].items == []
            else v == w
  {
    BindRefines(w.bus.table, w.flat, pattern, group);
    if Joinable(w.flat, pattern, group) {
      ConsumeRefines(BindQueue(w.bus.table, pattern, group).value, FlatStep(w.flat, OpBind(pattern, group)), group);
    }
  }

  // ---------- afterwards ----------

  lemma JoinLeavesOthers<M>(w: World<M>, e: Event<M>, id: nat, j: Joined, open: bool)
    requires Inv(w) && (e.Subscribe? || e.SubscribeGroup?) && Opened(w, id, j, open)
    ensures Opened(Apply(w, e), id, j, open)
  {
    assert id < w.flat.nextId;
    if w.phase.Idle? && e.SubscribeGroup? {
      SubscribeGroupOpens(w, e.pattern, e.group);
    }
  }

  lemma AdvanceLeavesOpen<M>(w: World<M>, id: nat, j: Joined, open: bool)
    requires Opened(w, id, j, open)
    ensures Opened(ApplyAdvance(w), id, j, open)
  {
  }

  /** Only its own receiver going away closes a subscriber. */
  lemma StaysOpen<M>(w: World<M>, e: Event<M>, id: nat, j: Joined, open: bool)
    requires Inv(w) && Opened(w, id, j, open)
    ensures Opened(Apply(w, e), id, j, open && e != Close(id))
  {
    match e {
      case Subscribe(_) => JoinLeavesOthers(w, e, id, j, open);
      case SubscribeGroup(_, _) => JoinLeavesOthers(w, e, id, j, open);
      case Dispatch(_, _) =>
      case Advance => AdvanceLeavesOpen(w, id, j, open);
      case Read(_) =>
      case Close(_) =>
    }
  }

  lemma {:induction false} OpenSince<M>(events: seq<Event<M>>, k: nat, id: nat, j: Joined)
    requires k <= |events| && Opened(Run(Start(), events[..k]), id, j, true)
    ensures Opened(Run(Start(), events), id, j, Close(id) !in events[k..])
    decreases |events|
  {
    if k == |events| {
      assert events[..k] == events;
    } else {
      var front, e := events[..|events| - 1], events[|events| - 1];
      assert front[..k] == events[..k] && events[k..] == front[k..] + [e];
      OpenSince(front, k, id, j);
      RunKeeps(front);
      StaysOpen(Run(Start(), front), e, id, j, Close(id) !in front[k..]);
    }
  }

  /** In every run: who subscribes while the actor is between commands is a subscriber from then on,
      with what it asked for and the messages accepted so far, and is open exactly as long as its
      receiver has not gone away; a group subscription that names a queue with another pattern opens
      nothing. */
  lemma {:induction false} OpenUntilClosed<M>(events: seq<Event<M>>, k: nat)
    requires k < |events| && Run(Start(), events[..k]).phase.Idle?
    ensures var w, v, id := Run(Start(), events[..k]), Run(Start(), events), Run(Start(), events[..k]).flat.nextId;
            match events[k]
            case Subscribe(p) => Opened(v, id, Joined(p, None, |w.posts|), Close(id) !in events[k + 1..])
            case SubscribeGroup(p, g) =>
              if Joinable(w.flat, p, g) then Opened(v, id, Joined(p, Some(g), |w.posts|), Close(id) !in events[k + 1..])
              else Run(Start(), events[..k + 1]) == w
            case _ => true
  {
    var w, id := Run(Start(), events[..k]), Run(Start(), events[..k]).flat.nextId;
    RunKeeps(events[..k]);
    assert events[..k + 1][..k] == events[..k];
    match events[k] {
      case Subscribe(p) =>
        SubscribeOpens(w, p);
        OpenSince(events, k + 1, id, Joined(p, None, |w.posts|));
      case SubscribeGroup(p, g) =>
        SubscribeGroupOpens(w, p, g);
        if Joinable(w.flat, p, g) {
          OpenSince(events, k + 1, id, Joined(p, Some(g), |w.posts|));
        }
      case _ =>
    }
  }

  // ---------- reading ----------

  /** In every run a fanout subscriber has read the first of the accepted messages that match, and
      its next read, if something is queued, takes the next one; between commands something is queued
      as long as it has not read all of them. */
  lemma {:induction false} ReadsInOrder<M>(events: seq<Event<M>>, id: nat)
    requires var w := Run(Start(), events);
             id in w.bus.channels && w.bus.channels[id].open && id in w.joined && w.joined[id].group.None?
    ensures var w, v := Run(Start(), events), Run(Start(), events + [Read(id)]);
            var c, all := w.bus.channels[id], Matching(w.posts, w.joined[id].since, w.joined[id].pattern);
            && c.taken <= all && id in v.bus.channels
            && (if c.items == [] then v.bus.channels[id].taken == c.taken
                else |c.taken| < |all| && v.bus.channels[id].taken == all[..|c.taken| + 1])
            && (w.phase.Idle? ==> (c.items == [] <==> c.taken == all))
  {
    FanoutIsExact(events, id);
    var w := Run(Start(), events);
    var c, all := w.bus.channels[id], Matching(w.posts, w.joined[id].since, w.joined[id].pattern);
    assert (events + [Read(id)])[..|events|] == events;
    assert Run(Start(), events + [Read(id)]) == ApplyRead(w, id);
    assert all == c.taken + (c.items + Pending(w.phase, w.posts, id));
    if c.items != [] {
      assert all[|c.taken|] == c.items[0];
      assert all[..|c.taken| + 1] == c.taken + [c.items[0]];
    }
  }
}
