/** Messages whose key cannot be resolved: the route loop settles each of them as a failure. */
module PartitionFailures {
  import opened Options
  import opened RouteJob
  import opened PartitionRegistry
  import opened PartitionModel
  import opened PartitionControl
  import opened PartitionJobs
  import opened PartitionTheorems
  import opened PartitionRefinement
  import opened PartitionOrder

  // ---------- what one of them emits ----------

  /** No handler and no success target hear of it; the error target does when it is configured and
      takes the failure; the settlement is the configured one, and the last effect. */
  lemma FailureEffects(c: Config, r: nat, b: Binding, outcomes: seq<Outcome>, i: nat)
    requires Processes(c, r, b, outcomes) && i < |outcomes| && c.routes[r].source[i].key.None?
    ensures var s, o := c.routes[r].source[i].effects, outcomes[i];
            var told := b.hasErrorTarget && o.errorEncodes && o.errorAccepts;
            && |s| == (if told then 2 else 1) && CountSettled(s) == 1
            && (told ==> s[0] == ErrorDelivered(o.errorDeliverOk))
            && s[|s| - 1] == Settled(b.onFailure)
  {
    var s, o := c.routes[r].source[i].effects, outcomes[i];
    assert s == EffectsOf(b, c.routes[r].source[i].key, o);
    if b.hasErrorTarget && o.errorEncodes && o.errorAccepts {
      assert s == [ErrorDelivered(o.errorDeliverOk)] + [Settled(b.onFailure)];
      assert s[1..] == [Settled(b.onFailure)] && CountSettled(s[1..]) == 1;
    }
  }

  // ---------- from the route's log to the message ----------

  lemma {:induction false} EffectsInline(c: Config, log: seq<Event>, r: nat, i: nat)
    requires KeyOf(c, Job(r, i)).None?
    ensures JobEffects(InlineLog(c, log, r), Job(r, i)) == JobEffects(log, Job(r, i))
  {
    if log != [] {
      var front, last := log[..|log| - 1], log[|log| - 1];
      EffectsInline(c, front, r, i);
      if OfInline(c, last, r) {
        JobEffectsConcat(InlineLog(c, front, r), [last], Job(r, i));
        assert [last][..0] == [];
      } else {
        assert InlineLog(c, front, r) + [] == InlineLog(c, front, r);
      }
    }
  }

  lemma EffectsOfWhole(c: Config, r: nat, i: nat, n: nat, k: nat)
    requires ValidJob(c, Job(r, n)) && k <= |JobScript(c, Job(r, n))|
    ensures |WholeRun(c, Job(r, n))| == |JobScript(c, Job(r, n))|
    ensures JobEffects(WholeRun(c, Job(r, n))[..k], Job(r, i)) == if i == n then JobScript(c, Job(r, n))[..k] else []
  {
    var job := Job(r, n);
    JobEffectsOfEmitted(c, Run(job, |JobScript(c, job)|, Completed), Job(r, i), k);
  }

  /** The scripts of the key-less messages below `n` hold that of message `i` once, if `i` is one. */
  lemma {:induction false} EffectsOfNone(c: Config, r: nat, n: nat, i: nat)
    requires r < |c.routes| && n <= |c.routes[r].source| && i < |c.routes[r].source| && c.routes[r].source[i].key.None?
    ensures JobEffects(NoneScripts(c, r, n), Job(r, i)) == if i < n then c.routes[r].source[i].effects else []
  {
    if n > 0 {
      var m := n - 1;
      EffectsOfNone(c, r, m, i);
      OneMoreNone(c, r, m, n, i);
    }
  }

  lemma {:induction false} OneMoreNone(c: Config, r: nat, m: nat, n: nat, i: nat)
    requires r < |c.routes| && n == m + 1 <= |c.routes[r].source|
    requires i < |c.routes[r].source| && c.routes[r].source[i].key.None?
    ensures JobEffects(NoneScripts(c, r, n), Job(r, i))
         == JobEffects(NoneScripts(c, r, m), Job(r, i)) + if i == m then c.routes[r].source[i].effects else []
  {
    var job, before := Job(r, m), NoneScripts(c, r, m);
    if KeyOf(c, job).None? {
      EffectsOfWhole(c, r, i, m, |JobScript(c, job)|);
      JobEffectsConcat(before, WholeRun(c, job), Job(r, i));
      assert WholeRun(c, job)[..|JobScript(c, job)|] == WholeRun(c, job);
      assert JobScript(c, job)[..|JobScript(c, job)|] == JobScript(c, job);
    } else {
      assert before + [] == before && JobEffects(before, Job(r, i)) + [] == JobEffects(before, Job(r, i));
    }
  }

  /** The message that the loop is at, or was at when it was cancelled. */
  predicate CutShort(route: Route, i: nat) {
    route.taken == i + 1 && (route.phase.Inline? || route.phase.Aborted?)
  }

  lemma {:induction false} EffectsGrow(events: seq<Event>, more: seq<Event>, job: Job)
    requires events <= more
    ensures JobEffects(events, job) <= JobEffects(more, job)
  {
    assert more == events + more[|events|..];
    JobEffectsConcat(events, more[|events|..], job);
  }

  /** All of the key-less messages below `n` and some of what message `n` emits. */
  lemma {:induction false} EffectsBetween(c: Config, r: nat, events: seq<Event>, n: nat, m: nat, i: nat)
    requires r < |c.routes| && m == n + 1 <= |c.routes[r].source|
    requires i < |c.routes[r].source| && c.routes[r].source[i].key.None?
    requires NoneScripts(c, r, n) <= events <= NoneScripts(c, r, m)
    ensures JobEffects(events, Job(r, i)) <= c.routes[r].source[i].effects
    ensures i != n ==> JobEffects(events, Job(r, i)) == if i < n then c.routes[r].source[i].effects else []
  {
    EffectsOfNone(c, r, n, i);
    EffectsOfNone(c, r, m, i);
    EffectsGrow(NoneScripts(c, r, n), events, Job(r, i));
    EffectsGrow(events, NoneScripts(c, r, m), Job(r, i));
  }

  lemma InlineIsBetween(c: Config, r: nat, n: nat, done: nat)
    requires KeyOf(c, Job(r, n)).None? && done <= |WholeRun(c, Job(r, n))|
    ensures NoneScripts(c, r, n) <= NoneScripts(c, r, n) + WholeRun(c, Job(r, n))[..done] <= NoneScripts(c, r, n + 1)
  {
    PrefixUnder(NoneScripts(c, r, n), WholeRun(c, Job(r, n))[..done], WholeRun(c, Job(r, n)));
  }

  /** In every run the log holds of a message without a key some first effects, and all of them once
      the loop has gone on. */
  lemma FailureIsHandled(c: Config, s: State, r: nat, i: nat)
    requires Reachable(c, s) && r < |c.routes| && i < |c.routes[r].source| && c.routes[r].source[i].key.None?
    ensures r < |s.routes|
    ensures JobEffects(s.log, Job(r, i)) <= c.routes[r].source[i].effects
    ensures i < s.routes[r].taken && !CutShort(s.routes[r], i) ==>
              JobEffects(s.log, Job(r, i)) == c.routes[r].source[i].effects
  {
    InlineReachable(c, s);
    LogOfFailure(c, s.log, r, s.routes[r], i);
  }

  lemma {:induction false} LogOfFailure(c: Config, log: seq<Event>, r: nat, route: Route, i: nat)
    requires InlineOk(c, log, r, route) && r < |c.routes| && route.taken <= |c.routes[r].source|
    requires i < |c.routes[r].source| && c.routes[r].source[i].key.None?
    ensures JobEffects(log, Job(r, i)) <= c.routes[r].source[i].effects
    ensures i < route.taken && !CutShort(route, i) ==> JobEffects(log, Job(r, i)) == c.routes[r].source[i].effects
  {
    var events, n := InlineLog(c, log, r), route.taken;
    EffectsInline(c, log, r, i);
    if events == NoneScripts(c, r, n) {
      EffectsOfNone(c, r, n, i);
    } else {
      if route.phase.Inline? {
        InlineIsBetween(c, r, n - 1, route.phase.done);
      }
      EffectsBetween(c, r, events, n - 1, n, i);
    }
  }

  /** In every run: a message whose key cannot be resolved is settled once, as the configuration says
      and after anything else, once the loop has gone on; neither the handler nor the success target
      ever hears of it, and the error target exactly when it is configured and takes the failure. */
  lemma FailureIsSettled(c: Config, s: State, r: nat, b: Binding, outcomes: seq<Outcome>, i: nat)
    requires Reachable(c, s) && Processes(c, r, b, outcomes) && i < |outcomes| && c.routes[r].source[i].key.None?
    ensures r < |s.routes|
    ensures var seen := JobEffects(s.log, Job(r, i));
            var told := b.hasErrorTarget && outcomes[i].errorEncodes && outcomes[i].errorAccepts;
            && (forall k :: 0 <= k < |seen| ==>
                  seen[k] == if told && k == 0 then ErrorDelivered(outcomes[i].errorDeliverOk) else Settled(b.onFailure))
            && |seen| <= (if told then 2 else 1)
            && (i < s.routes[r].taken && !CutShort(s.routes[r], i) ==> |seen| == if told then 2 else 1)
  {
    FailureIsHandled(c, s, r, i);
    FailureEffects(c, r, b, outcomes, i);
  }
}
