/** Subjects, dot-separated tokens and the local wildcard matcher. */
module Subjects {
  /** `str::split('.')`. */
  function Split(s: string): (tokens: seq<string>)
    ensures tokens != []
    ensures forall t :: t in tokens ==> '.' !in t
  {
    if s == "" then [""]
    else
      var rest := Split(s[1..]);
      if s[0] == '.' then [""] + rest
      else
        assert forall t :: t in rest[1..] ==> t in rest;
        [[s[0]] + rest[0]] + rest[1..]
  }

  /** `join(".")`. */
  function Join(tokens: seq<string>): string
    requires tokens != []
  {
    if |tokens| == 1 then tokens[0] else tokens[0] + "." + Join(tokens[1..])
  }

  lemma {:induction false} JoinOfSplit(s: string)
    ensures Join(Split(s)) == s
  {
    if s != "" {
      JoinOfSplit(s[1..]);
      var rest := Split(s[1..]);
      if s[0] == '.' {
        assert Split(s)[1..] == rest;
      } else {
        assert Split(s)[1..] == rest[1..];
      }
      assert s == [s[0]] + s[1..];
    }
  }

  lemma {:induction false} SplitOfToken(t: string)
    requires '.' !in t
    ensures Split(t) == [t]
  {
    if t != "" {
      SplitOfToken(t[1..]);
      assert t == [t[0]] + t[1..] && t[0] != '.';
    }
  }

  lemma {:induction false} SplitOfPrefixed(t: string, rest: string)
    requires '.' !in t
    ensures Split(t + "." + rest) == [t] + Split(rest)
  {
    var s := t + "." + rest;
    if t == "" {
      assert s[1..] == rest;
    } else {
      SplitOfPrefixed(t[1..], rest);
      assert s[1..] == t[1..] + "." + rest && s[0] == t[0] && t[0] != '.';
      assert Split(s[1..]) == [t[1..]] + Split(rest);
      assert [s[0]] + t[1..] == t;
    }
  }

  lemma {:induction false} SplitOfJoin(tokens: seq<string>)
    requires tokens != [] && forall t :: t in tokens ==> '.' !in t
    ensures Split(Join(tokens)) == tokens
  {
    if |tokens| == 1 {
      SplitOfToken(tokens[0]);
    } else {
      SplitOfJoin(tokens[1..]);
      SplitOfPrefixed(tokens[0], Join(tokens[1..]));
    }
  }

  lemma {:induction false} SplitAtDot(a: string, b: string)
    ensures Split(a + "." + b) == Split(a) + Split(b)
  {
    var s := a + "." + b;
    if a == "" {
      assert s[1..] == b;
    } else {
      SplitAtDot(a[1..], b);
      assert s[1..] == a[1..] + "." + b && s[0] == a[0];
      SplitGrows(s, Split(a[1..]), Split(b));
    }
  }

  /** A first character goes to the first token, or makes an empty one before it. */
  lemma {:induction false} SplitGrows(s: string, front: seq<string>, rest: seq<string>)
    requires s != "" && front != [] && Split(s[1..]) == front + rest
    ensures Split(s) == (if s[0] == '.' then [""] + front else [[s[0]] + front[0]] + front[1..]) + rest
  {
    if s[0] == '.' {
      Regroup([""], front, rest);
    } else {
      assert (front + rest)[1..] == front[1..] + rest;
      Regroup([[s[0]] + front[0]], front[1..], rest);
    }
  }

  lemma Regroup(a: seq<string>, b: seq<string>, c: seq<string>)
    ensures a + (b + c) == a + b + c
  {
  }

  lemma {:induction false} JoinAtDot(a: seq<string>, b: seq<string>)
    requires a != [] && b != []
    ensures Join(a + b) == Join(a) + "." + Join(b)
  {
    if |a| == 1 {
      assert (a + b)[1..] == b;
    } else {
      JoinAtDot(a[1..], b);
      assert (a + b)[1..] == a[1..] + b;
    }
  }

  ghost predicate NoTail(p: seq<string>, k: nat)
    requires k <= |p|
  {
    forall i :: 0 <= i < k ==> p[i] != ">"
  }

  /** The position of the first tail wildcard, or the length if there is none. */
  function FirstTail(p: seq<string>): (k: nat)
    ensures k <= |p| && NoTail(p, k) && (k < |p| ==> p[k] == ">")
  {
    if p == [] || p[0] == ">" then 0 else 1 + FirstTail(p[1..])
  }

  /** The first `k` pattern tokens are each `*` or the subject's own token. */
  predicate Agree(p: seq<string>, s: seq<string>, k: nat)
    requires k <= |p| && k <= |s|
  {
    forall i :: 0 <= i < k ==> p[i] == "*" || p[i] == s[i]
  }

  /** What a pattern means: token by token, `*` for any one token, and everything from the first
      `>` on for one or more tokens. */
  predicate Matches(p: seq<string>, s: seq<string>) {
    var k := FirstTail(p);
    if k < |p| then k < |s| && Agree(p, s, k) else |p| == |s| && Agree(p, s, k)
  }

  /** `SubjectRouter::wildcard_match`. */
  method WildcardMatch(pattern: string, subject: string) returns (matched: bool)
    ensures matched == Matches(Split(pattern), Split(subject))
  {
    var p, s := Split(pattern), Split(subject);
    var i := 0;
    while i < |p|
      invariant i <= |p| && i <= |s| && NoTail(p, i)
      invariant Agree(p, s, i)
    {
      if p[i] == ">" {
        FirstTailIs(p, i);
        return i < |s|;
      } else if p[i] == "*" {
        if i >= |s| {
          TooShort(p, s, i);
          return false;
        }
      } else {
        if i >= |s| {
          TooShort(p, s, i);
          return false;
        }
        if s[i] != p[i] {
          Differ(p, s, i);
          return false;
        }
      }
      i := i + 1;
    }
    FirstTailIs(p, i);
    return |p| == |s|;
  }

  lemma {:induction false} FirstTailIs(p: seq<string>, i: nat)
    requires i <= |p| && NoTail(p, i) && (i < |p| ==> p[i] == ">")
    ensures FirstTail(p) == i
  {
  }

  /** A lone `>` matches every subject, the empty one included; what follows a `>` does not matter. */
  lemma TailTakesTheRest(front: seq<string>, after: seq<string>, s: seq<string>)
    requires NoTail(front, |front|)
    ensures Matches(front + [">"] + after, s) <==> |front| < |s| && Agree(front, s, |front|)
    ensures forall subject: string :: Matches(Split(">"), Split(subject))
  {
    var p := front + [">"] + after;
    FirstTailIs(p, |front|);
    assert forall i :: 0 <= i < |front| ==> p[i] == front[i];
    SplitOfToken(">");
  }

  lemma TooShort(p: seq<string>, s: seq<string>, i: nat)
    requires i < |p| && i == |s| && NoTail(p, i) && p[i] != ">"
    ensures !Matches(p, s)
  {
  }

  lemma Differ(p: seq<string>, s: seq<string>, i: nat)
    requires i < |p| && i < |s| && NoTail(p, i) && p[i] != ">" && p[i] != "*" && p[i] != s[i]
    ensures !Matches(p, s)
  {
  }
}
