/** One message going through a route: handler, targets, error target, settlement. */
module RouteJob {
  datatype Decision = Ack | Retry | Reject

  /** What the handler, the targets and the codec do with one message. `httpError` says that a
      failed delivery carried an HTTP response, which is forwarded without being encoded. */
  datatype Outcome = Outcome(
    accepts: bool, handlerOk: bool, deliverOk: bool, httpError: bool,
    errorEncodes: bool, errorAccepts: bool, errorDeliverOk: bool)

  datatype Binding = Binding(hasTarget: bool, hasErrorTarget: bool, onFailure: Decision)

  datatype Effect =
    | Handled(ok: bool)
    | Delivered(ok: bool)
    | ErrorDelivered(ok: bool)
    | Settled(decision: Decision)

  /** The effects of `deliver_failure`. */
  function FailureScript(b: Binding, o: Outcome, response: bool): seq<Effect> {
    if b.hasErrorTarget && (response || o.errorEncodes) && o.errorAccepts
    then [ErrorDelivered(o.errorDeliverOk)] else []
  }

  function FailAndSettle(b: Binding, o: Outcome, response: bool): seq<Effect> {
    FailureScript(b, o, response) + [Settled(b.onFailure)]
  }

  /** The effects of processing one message, in order. */
  function Script(b: Binding, o: Outcome): seq<Effect> {
    if !b.hasTarget then
      [Handled(o.handlerOk)] + if o.handlerOk then [Settled(Ack)] else FailAndSettle(b, o, false)
    else if !o.accepts then FailAndSettle(b, o, false)
    else if !o.handlerOk then [Handled(false)] + FailAndSettle(b, o, false)
    else [Handled(true), Delivered(o.deliverOk)] +
         if o.deliverOk then [Settled(Ack)] else FailAndSettle(b, o, o.httpError)
  }

  /** The message went all the way: the handler succeeded and any success target took the output. */
  predicate Succeeds(b: Binding, o: Outcome) {
    o.handlerOk && (b.hasTarget ==> o.accepts && o.deliverOk)
  }

  function CountSettled(effects: seq<Effect>): nat {
    if effects == [] then 0
    else (if effects[0].Settled? then 1 else 0) + CountSettled(effects[1..])
  }

  function CountErrorDelivered(effects: seq<Effect>): nat {
    if effects == [] then 0
    else (if effects[0].ErrorDelivered? then 1 else 0) + CountErrorDelivered(effects[1..])
  }

  /** Exactly one settlement, as the last effect; `Ack` or the configured decision according to
      success; the error target hears of a failure at most once and of a success never; a
      delivery follows a successful handler and nothing else does. */
  lemma SettlementDiscipline(b: Binding, o: Outcome)
    ensures var s := Script(b, o);
            && s != [] && CountSettled(s) == 1
            && s[|s| - 1] == Settled(if Succeeds(b, o) then Ack else b.onFailure)
            && CountErrorDelivered(s) <= 1
            && (Succeeds(b, o) ==> CountErrorDelivered(s) == 0)
            && (forall k :: 0 <= k < |s| && s[k].Handled? ==> k == 0 && s[k].ok == o.handlerOk)
            && (forall k :: 0 <= k < |s| && s[k].Delivered? ==>
                  k == 1 && s[0] == Handled(true) && s[k].ok == o.deliverOk)
            && ((Handled(true) in s || Handled(false) in s) <==> (b.hasTarget ==> o.accepts))
  {
    FailureCounts(b, o, false);
    FailureCounts(b, o, o.httpError);
    var handled := [Handled(o.handlerOk)];
    var failed := FailAndSettle(b, o, false);
    CountsConcat(handled, [Settled(Ack)]);
    CountsConcat(handled, failed);
    var delivered := [Handled(true), Delivered(o.deliverOk)];
    CountsConcat(delivered, [Settled(Ack)]);
    CountsConcat(delivered, FailAndSettle(b, o, o.httpError));
    assert CountSettled(delivered) == 0 == CountErrorDelivered(delivered);
    assert CountSettled([Settled(Ack)]) == 1;
    assert b.hasTarget && !o.accepts ==> forall k :: 0 <= k < |Script(b, o)| ==> !Script(b, o)[k].Handled?;
    assert (b.hasTarget ==> o.accepts) ==> Script(b, o)[0] == Handled(o.handlerOk);
  }

  /** Processing one message, effect by effect: when the handler runs, when its output is delivered,
      when the error target hears of a failure, and that nothing else happens. */
  lemma ScriptIsExact(b: Binding, o: Outcome)
    ensures var s := Script(b, o);
            var handled := b.hasTarget ==> o.accepts;
            var delivered := b.hasTarget && o.accepts && o.handlerOk;
            var told := !Succeeds(b, o) && b.hasErrorTarget && o.errorAccepts && (o.errorEncodes || (delivered && o.httpError));
            && |s| == 1 + (if handled then 1 else 0) + (if delivered then 1 else 0) + (if told then 1 else 0)
            && (handled ==> s[0] == Handled(o.handlerOk))
            && (delivered ==> |s| >= 2 && s[1] == Delivered(o.deliverOk))
            && (told ==> |s| >= 2 && s[|s| - 2] == ErrorDelivered(o.errorDeliverOk))
            && (forall ok :: ErrorDelivered(ok) in s <==> told && ok == o.errorDeliverOk)
            && s[|s| - 1] == Settled(if Succeeds(b, o) then Ack else b.onFailure)
  {
  }

  lemma {:induction false} CountsConcat(x: seq<Effect>, y: seq<Effect>)
    ensures CountSettled(x + y) == CountSettled(x) + CountSettled(y)
    ensures CountErrorDelivered(x + y) == CountErrorDelivered(x) + CountErrorDelivered(y)
  {
    if x == [] {
      assert x + y == y;
    } else {
      CountsConcat(x[1..], y);
      assert (x + y)[1..] == x[1..] + y;
    }
  }

  lemma FailureCounts(b: Binding, o: Outcome, response: bool)
    ensures CountSettled(FailAndSettle(b, o, response)) == 1
    ensures CountErrorDelivered(FailAndSettle(b, o, response)) <= 1
    ensures |FailAndSettle(b, o, response)| <= 2
  {
    CountsConcat(FailureScript(b, o, response), [Settled(b.onFailure)]);
    assert CountSettled([ErrorDelivered(o.errorDeliverOk)]) == 0;
  }

  /** One recorded effect, tagged with the position of its message in the source. */
  datatype Logged = Logged(index: nat, effect: Effect)

  function Tag(index: nat, effects: seq<Effect>): (log: seq<Logged>)
    ensures |log| == |effects|
    ensures forall k :: 0 <= k < |log| ==> log[k] == Logged(index, effects[k])
  {
    seq(|effects|, k requires 0 <= k < |effects| => Logged(index, effects[k]))
  }

  lemma TagConcat(index: nat, x: seq<Effect>, y: seq<Effect>)
    ensures Tag(index, x + y) == Tag(index, x) + Tag(index, y)
  {
  }

  lemma TwoParts(start: seq<Logged>, index: nat, x: seq<Effect>, y: seq<Effect>)
    ensures start + Tag(index, x + y) == start + Tag(index, x) + Tag(index, y)
  {
    TagConcat(index, x, y);
  }

  /** The log with the script of one more message, part by part. */
  lemma TagScript(start: seq<Logged>, index: nat, b: Binding, o: Outcome)
    ensures start + Tag(index, Script(b, o)) ==
            if !b.hasTarget then
              start + Tag(index, [Handled(o.handlerOk)])
              + Tag(index, if o.handlerOk then [Settled(Ack)] else FailAndSettle(b, o, false))
            else if !o.accepts then start + Tag(index, FailAndSettle(b, o, false))
            else if !o.handlerOk then start + Tag(index, [Handled(false)]) + Tag(index, FailAndSettle(b, o, false))
            else start + Tag(index, [Handled(true)]) + Tag(index, [Delivered(o.deliverOk)])
                 + Tag(index, if o.deliverOk then [Settled(Ack)] else FailAndSettle(b, o, o.httpError))
  {
    if !b.hasTarget {
      TwoParts(start, index, [Handled(o.handlerOk)], if o.handlerOk then [Settled(Ack)] else FailAndSettle(b, o, false));
    } else if o.accepts && !o.handlerOk {
      TwoParts(start, index, [Handled(false)], FailAndSettle(b, o, false));
    } else if o.accepts {
      var last := if o.deliverOk then [Settled(Ack)] else FailAndSettle(b, o, o.httpError);
      assert [Handled(true)] + [Delivered(o.deliverOk)] == [Handled(true), Delivered(o.deliverOk)];
      TwoParts(start, index, [Handled(true), Delivered(o.deliverOk)], last);
      TwoParts(start, index, [Handled(true)], [Delivered(o.deliverOk)]);
    }
  }

  /** Messages with these scripts processed one after the other. */
  function OneByOne(scripts: seq<seq<Effect>>, n: nat): seq<Logged>
    requires n <= |scripts|
  {
    if n == 0 then [] else OneByOne(scripts, n - 1) + Tag(n - 1, scripts[n - 1])
  }

  function ScriptsOf(b: Binding, source: seq<Outcome>): (scripts: seq<seq<Effect>>)
    ensures |scripts| == |source|
    ensures forall k :: 0 <= k < |source| ==> scripts[k] == Script(b, source[k])
  {
    seq(|source|, k requires 0 <= k < |source| => Script(b, source[k]))
  }

  /** What the unpartitioned loop emits for the first `n` messages of a source. */
  function LoopLog(b: Binding, source: seq<Outcome>, n: nat): seq<Logged>
    requires n <= |source|
  {
    OneByOne(ScriptsOf(b, source), n)
  }

  lemma OneMore(start: seq<Logged>, b: Binding, source: seq<Outcome>, n: nat)
    requires n < |source|
    ensures start + LoopLog(b, source, n) + Tag(n, Script(b, source[n])) == start + LoopLog(b, source, n + 1)
  {
  }

  /** One route: its binding, and the effects of its loop. */
  class RouteRunner {
    const binding: Binding
    var log: seq<Logged>

    constructor (binding: Binding)
      ensures this.binding == binding && log == []
    {
      this.binding := binding;
      log := [];
    }

    method Emit(index: nat, effect: Effect)
      modifies this
      ensures log == old(log) + Tag(index, [effect])
    {
      log := log + [Logged(index, effect)];
    }

    method DeliverFailure(index: nat, o: Outcome, response: bool)
      modifies this
      ensures log == old(log) + Tag(index, FailureScript(binding, o, response))
      ensures log == old(log) +
              if binding.hasErrorTarget && (response || o.errorEncodes) && o.errorAccepts
              then [Logged(index, ErrorDelivered(o.errorDeliverOk))] else []
    {
      if !binding.hasErrorTarget {
        return;
      }
      if !response {
        if !o.errorEncodes {
          return;
        }
      }
      if !o.errorAccepts {
        return;
      }
      Emit(index, ErrorDelivered(o.errorDeliverOk));
    }

    method FailThenSettle(index: nat, o: Outcome, response: bool)
      modifies this
      ensures log == old(log) + Tag(index, FailAndSettle(binding, o, response))
    {
      DeliverFailure(index, o, response);
      Emit(index, Settled(binding.onFailure));
      TagConcat(index, FailureScript(binding, o, response), [Settled(binding.onFailure)]);
    }

    /** `process_route_message`. */
    method Process(index: nat, o: Outcome)
      modifies this
      ensures log == old(log) + Tag(index, Script(binding, o))
    {
      TagScript(log, index, binding, o);
      if !binding.hasTarget {
        Emit(index, Handled(o.handlerOk));
        if o.handlerOk {
          Emit(index, Settled(Ack));
        } else {
          FailThenSettle(index, o, false);
        }
        return;
      }
      if !o.accepts {
        FailThenSettle(index, o, false);
        return;
      }
      Emit(index, Handled(o.handlerOk));
      if o.handlerOk {
        Emit(index, Delivered(o.deliverOk));
        if !o.deliverOk {
          FailThenSettle(index, o, o.httpError);
        } else {
          Emit(index, Settled(Ack));
        }
      } else {
        FailThenSettle(index, o, false);
      }
    }

    /** The loop of a route without a partitioner. */
    method RunUnpartitioned(source: seq<Outcome>)
      modifies this
      ensures log == old(log) + LoopLog(binding, source, |source|)
    {
      ghost var start := log;
      var taken := 0;
      assert start + LoopLog(binding, source, 0) == start;
      while taken < |source|
        invariant taken <= |source| && log == start + LoopLog(binding, source, taken)
      {
        OneMore(start, binding, source, taken);
        Process(taken, source[taken]);
        taken := taken + 1;
      }
    }
  }

  /** Settlements recorded for one message. */
  function SettledOf(log: seq<Logged>, index: nat): nat {
    if log == [] then 0
    else SettledOf(log[..|log| - 1], index) +
         if log[|log| - 1].index == index && log[|log| - 1].effect.Settled? then 1 else 0
  }

  lemma {:induction false} SettledOfConcat(a: seq<Logged>, b: seq<Logged>, index: nat)
    ensures SettledOf(a + b, index) == SettledOf(a, index) + SettledOf(b, index)
  {
    if b == [] {
      assert a + b == a;
    } else {
      SettledOfConcat(a, b[..|b| - 1], index);
      assert (a + b)[..|a + b| - 1] == a + b[..|b| - 1];
    }
  }

  lemma {:induction false} SettledOfTag(i: nat, effects: seq<Effect>, index: nat)
    ensures SettledOf(Tag(i, effects), index) == if i == index then CountSettled(effects) else 0
  {
    if effects != [] {
      SettledOfTag(i, effects[1..], index);
      var rest := Tag(i, effects[1..]);
      assert Tag(i, effects) == [Logged(i, effects[0])] + rest;
      SettledOfConcat([Logged(i, effects[0])], rest, index);
      assert [Logged(i, effects[0])][..0] == [];
    }
  }

  /** Effects appear message by message, and a settlement closes its message. */
  ghost predicate OneMessageAtATime(log: seq<Logged>, n: nat) {
    && (forall k :: 0 <= k < |log| ==> log[k].index < n)
    && (forall j, k :: 0 <= j < k < |log| ==> log[j].index <= log[k].index)
    && (forall j, k :: 0 <= j < k < |log| && log[j].effect.Settled? ==> log[j].index < log[k].index)
  }

  predicate SettlesLast(effects: seq<Effect>) {
    effects != [] && CountSettled(effects) == 1 && effects[|effects| - 1].Settled?
  }

  ghost predicate AllSettleLast(scripts: seq<seq<Effect>>) {
    forall k :: 0 <= k < |scripts| ==> SettlesLast(scripts[k])
  }

  lemma MessageNext(scripts: seq<seq<Effect>>, n: nat)
    requires 0 < n <= |scripts| && AllSettleLast(scripts) && OneMessageAtATime(OneByOne(scripts, n - 1), n - 1)
    ensures OneMessageAtATime(OneByOne(scripts, n), n)
  {
    AppendMessage(OneByOne(scripts, n - 1), n - 1, scripts[n - 1], OneByOne(scripts, n));
  }

  lemma {:induction false} OneByOneInOrder(scripts: seq<seq<Effect>>, n: nat)
    requires n <= |scripts| && AllSettleLast(scripts)
    ensures OneMessageAtATime(OneByOne(scripts, n), n)
  {
    if n > 0 {
      OneByOneInOrder(scripts, n - 1);
      MessageNext(scripts, n);
    }
  }

  lemma {:induction false} OneByOneSettles(scripts: seq<seq<Effect>>, n: nat, i: nat)
    requires n <= |scripts| && AllSettleLast(scripts)
    ensures SettledOf(OneByOne(scripts, n), i) == if i < n then 1 else 0
  {
    if n > 0 {
      OneByOneSettles(scripts, n - 1, i);
      SettledOfConcat(OneByOne(scripts, n - 1), Tag(n - 1, scripts[n - 1]), i);
      SettledOfTag(n - 1, scripts[n - 1], i);
    }
  }

  /** In a whole run of the loop every message is settled exactly once, by its last effect, and
      no effect of a later message comes before an effect of an earlier one. */
  lemma LoopSettlesEachMessageOnce(b: Binding, source: seq<Outcome>, n: nat)
    requires n <= |source|
    ensures OneMessageAtATime(LoopLog(b, source, n), n)
    ensures forall i: nat :: i < n ==> SettledOf(LoopLog(b, source, n), i) == 1
  {
    forall k | 0 <= k < |source| ensures SettlesLast(ScriptsOf(b, source)[k]) {
      SettlementDiscipline(b, source[k]);
    }
    OneByOneInOrder(ScriptsOf(b, source), n);
    forall i: nat | i < n ensures SettledOf(LoopLog(b, source, n), i) == 1 {
      OneByOneSettles(ScriptsOf(b, source), n, i);
    }
  }

  lemma AppendMessage(before: seq<Logged>, index: nat, chunk: seq<Effect>, after: seq<Logged>)
    requires OneMessageAtATime(before, index) && SettlesLast(chunk) && after == before + Tag(index, chunk)
    ensures OneMessageAtATime(after, index + 1)
  {
    SettledOnlyLast(chunk);
  }

  lemma {:induction false} SettledOnlyLast(effects: seq<Effect>)
    requires effects != [] && CountSettled(effects) == 1 && effects[|effects| - 1].Settled?
    ensures forall k :: 0 <= k < |effects| - 1 ==> !effects[k].Settled?
  {
    if |effects| > 1 {
      SomeSettled(effects[1..]);
      assert !effects[0].Settled?;
      SettledOnlyLast(effects[1..]);
      forall k | 0 < k < |effects| - 1 ensures !effects[k].Settled? {
        assert effects[k] == effects[1..][k - 1];
      }
    }
  }

  lemma {:induction false} SomeSettled(effects: seq<Effect>)
    requires effects != [] && effects[|effects| - 1].Settled?
    ensures CountSettled(effects) >= 1
  {
    if |effects| > 1 {
      SomeSettled(effects[1..]);
    }
  }
}
