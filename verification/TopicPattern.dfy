/** Translation of subject patterns to AMQP topic-exchange binding keys. */
module TopicPattern {
  import opened Options
  import opened Subjects

  datatype PatternError = EmptyPattern | EmptyToken | TailNotLast

  /** The tokens of the binding key for acceptable pattern tokens. */
  function TopicTokens(p: seq<string>): (k: seq<string>)
    requires p != []
    ensures k != []
  {
    if p[|p| - 1] != ">" then p
    else if |p| == 1 then ["#"]
    else p[..|p| - 1] + ["*", "#"]
  }

  /** No empty token, and `>` nowhere but last. */
  ghost predicate Acceptable(p: seq<string>) {
    "" !in p && forall i :: 0 <= i < |p| - 1 ==> p[i] != ">"
  }

  /** `rabbit_binding_key`. */
  method RabbitBindingKey(pattern: string) returns (key: Result<string, PatternError>)
    ensures key.Ok? <==> pattern != "" && Acceptable(Split(pattern))
    ensures key.Ok? ==> key.value == Join(TopicTokens(Split(pattern)))
    ensures pattern == "" ==> key == Err(EmptyPattern)
    ensures pattern != "" && "" in Split(pattern) ==> key == Err(EmptyToken)
    ensures pattern != "" && "" !in Split(pattern) && !Acceptable(Split(pattern)) ==> key == Err(TailNotLast)
  {
    if pattern == "" {
      return Err(EmptyPattern);
    }
    var tokens := Split(pattern);
    if "" in tokens {
      return Err(EmptyToken);
    }
    var index := FirstTail(tokens);
    if index < |tokens| {
      if index != |tokens| - 1 {
        return Err(TailNotLast);
      }
      if |tokens| == 1 {
        return Ok("#");
      }
      tokens := tokens[..|tokens| - 1];
      tokens := tokens + ["*"];
      tokens := tokens + ["#"];
      assert tokens == TopicTokens(Split(pattern));
      return Ok(Join(tokens));
    }
    JoinOfSplit(pattern);
    return Ok(pattern);
  }

  lemma TailTokens(p: seq<string>)
    requires p != []
    ensures TopicTokens(p + [">"]) == p + ["*", "#"]
  {
    assert (p + [">"])[..|p|] == p;
  }

  lemma TailText(s: string)
    ensures s + "." + Join(["*", "#"]) == s + ".*.#"
  {
    assert ["*", "#"][1..] == ["#"];
    assert Join(["*", "#"]) == "*.#";
  }

  /** The text of the key: `#` for a lone `>`, `.*.#` in the place of a final `.>`, and any other
      pattern as it is. */
  lemma {:induction false} KeyText(pattern: string)
    ensures Join(TopicTokens(Split(">"))) == "#"
    ensures Join(TopicTokens(Split(pattern + ".>"))) == pattern + ".*.#"
    ensures Split(pattern)[|Split(pattern)| - 1] != ">" ==> Join(TopicTokens(Split(pattern))) == pattern
  {
    SplitOfToken(">");
    JoinOfSplit(pattern);
    TailKey(pattern);
  }

  lemma {:induction false} TailKey(pattern: string)
    ensures Join(TopicTokens(Split(pattern + ".>"))) == pattern + ".*.#"
  {
    var p := Split(pattern);
    assert pattern + ".>" == pattern + "." + ">";
    SplitAtDot(pattern, ">");
    SplitOfToken(">");
    TailTokens(p);
    JoinAtDot(p, ["*", "#"]);
    JoinOfSplit(pattern);
    TailText(pattern);
  }

  /** The topic rules of section 3.1.3.3 of AMQP 0-9-1, as a backtracking matcher: `*` takes one
      word, `#` zero or more. */
  predicate TopicMatch(k: seq<string>, s: seq<string>)
    decreases |k| + |s|
  {
    if k == [] then s == []
    else if k[0] == "#" then TopicMatch(k[1..], s) || (s != [] && TopicMatch(k, s[1..]))
    else s != [] && (k[0] == "*" || k[0] == s[0]) && TopicMatch(k[1..], s[1..])
  }

  /** `lens` cuts `s` into one segment per key word, each of a length its word allows. */
  ghost predicate Segments(k: seq<string>, s: seq<string>, lens: seq<nat>)
    decreases |k|
  {
    if k == [] then s == [] && lens == []
    else
      lens != [] && lens[0] <= |s|
      && (k[0] != "#" ==> lens[0] == 1 && (k[0] == "*" || k[0] == s[0]))
      && Segments(k[1..], s[lens[0]..], lens[1..])
  }

  ghost predicate HasSegments(k: seq<string>, s: seq<string>) {
    exists lens: seq<nat> :: Segments(k, s, lens)
  }

  lemma {:induction false} Segmented(k: seq<string>, s: seq<string>, lens: seq<nat>)
    requires Segments(k, s, lens)
    ensures HasSegments(k, s)
  {
  }

  /** The matcher finds a segmentation whenever there is one. */
  lemma {:induction false} TopicMatchIsSegmentation(k: seq<string>, s: seq<string>)
    ensures TopicMatch(k, s) <==> HasSegments(k, s)
    decreases |k| + |s|
  {
    if TopicMatch(k, s) {
      var lens := FindSegments(k, s);
      Segmented(k, s, lens);
    } else {
      forall lens: seq<nat> ensures !Segments(k, s, lens) {
        if Segments(k, s, lens) {
          SegmentsMatch(k, s, lens);
        }
      }
    }
  }

  lemma {:induction false} FindSegments(k: seq<string>, s: seq<string>) returns (lens: seq<nat>)
    requires TopicMatch(k, s)
    ensures Segments(k, s, lens)
    decreases |k| + |s|
  {
    if k == [] {
      lens := [];
    } else if k[0] == "#" && TopicMatch(k[1..], s) {
      var rest := FindSegments(k[1..], s);
      lens := [0] + rest;
      assert s[0..] == s && lens[1..] == rest;
    } else if k[0] == "#" {
      var rest := FindSegments(k, s[1..]);
      lens := rest[0 := rest[0] + 1];
      assert s[lens[0]..] == s[1..][rest[0]..] && lens[1..] == rest[1..];
    } else {
      var rest := FindSegments(k[1..], s[1..]);
      lens := [1] + rest;
      assert lens[1..] == rest;
    }
  }

  lemma {:induction false} SegmentsMatch(k: seq<string>, s: seq<string>, lens: seq<nat>)
    requires Segments(k, s, lens)
    ensures TopicMatch(k, s)
    decreases |k| + |s|
  {
    if k != [] {
      if k[0] == "#" && lens[0] > 0 {
        var shorter := lens[0 := lens[0] - 1];
        assert s[1..][shorter[0]..] == s[lens[0]..] && shorter[1..] == lens[1..];
        SegmentsMatch(k, s[1..], shorter);
      } else {
        SegmentsMatch(k[1..], s[lens[0]..], lens[1..]);
        assert s[0..] == s;
      }
    }
  }

  lemma {:induction false} HashMatchesAll(s: seq<string>)
    ensures TopicMatch(["#"], s)
  {
    if s == [] {
      assert ["#"][1..] == [];
    } else {
      HashMatchesAll(s[1..]);
    }
  }

  /** Plain words and `*` in front of some key words. */
  lemma {:induction false} MatchAfterWords(p: seq<string>, k: seq<string>, s: seq<string>)
    requires "#" !in p
    ensures TopicMatch(p + k, s) <==> |p| <= |s| && Agree(p, s, |p|) && TopicMatch(k, s[|p|..])
  {
    if p == [] {
      assert p + k == k && s[0..] == s;
    } else {
      assert (p + k)[0] == p[0] && (p + k)[1..] == p[1..] + k;
      if s != [] {
        MatchAfterWords(p[1..], k, s[1..]);
        if |p| <= |s| {
          assert s[1..][|p| - 1..] == s[|p|..];
        }
        assert |p| <= |s| && Agree(p, s, |p|) ==> Agree(p[1..], s[1..], |p| - 1);
        assert |p| <= |s| && (p[0] == "*" || p[0] == s[0]) && Agree(p[1..], s[1..], |p| - 1) ==>
            forall i :: 0 <= i < |p| ==> i == 0 || (p[i] == p[1..][i - 1] && s[i] == s[1..][i - 1]);
      }
    }
  }

  /** Token by token the translation preserves meaning. A lone `>` becomes a lone `#`, which also
      takes no words at all; splitting a subject never yields none. */
  lemma {:induction false} TokensPreserveMeaning(p: seq<string>, s: seq<string>)
    requires p != [] && Acceptable(p) && "#" !in p && s != []
    ensures TopicMatch(TopicTokens(p), s) <==> Matches(p, s)
  {
    var n := |p| - 1;
    if p[n] != ">" {
      FirstTailIs(p, |p|);
      MatchAfterWords(p, [], s);
      assert p + [] == p;
    } else {
      FirstTailIs(p, n);
      if n == 0 {
        HashMatchesAll(s);
      } else {
        assert "#" !in p[..n];
        MatchAfterWords(p[..n], ["*", "#"], s);
        if n <= |s| {
          TailMatches(s[n..]);
          assert Agree(p, s, n) <==> Agree(p[..n], s, n);
        }
      }
    }
  }

  lemma {:induction false} TailMatches(s: seq<string>)
    ensures TopicMatch(["*", "#"], s) <==> s != []
  {
    if s != [] {
      HashMatchesAll(s[1..]);
      assert ["*", "#"][1..] == ["#"];
    }
  }

  /** The words of a routing or binding key: an empty key has none. */
  function Words(key: string): seq<string> {
    if key == "" then [] else Split(key)
  }

  /** Joining the translated tokens and letting the exchange split them again loses nothing. */
  lemma KeyHasItsTokens(p: seq<string>)
    requires p != [] && Acceptable(p) && forall t :: t in p ==> '.' !in t
    ensures Words(Join(TopicTokens(p))) == TopicTokens(p)
  {
    var k := TopicTokens(p);
    assert forall t :: t in k ==> '.' !in t && t != "" by {
      forall t | t in k ensures t in p || t == "*" || t == "#" {
        if p[|p| - 1] == ">" && |p| > 1 {
          assert forall i :: 0 <= i < |p| - 1 ==> p[..|p| - 1][i] == p[i];
        }
      }
    }
    SplitOfJoin(k);
    assert k[0] in k && k[0] != "";
  }

  /** The exchange's verdict on the translated key, for a pattern the translation accepts. */
  predicate BrokerMatches(pattern: string, subject: string) {
    TopicMatch(Words(Join(TopicTokens(Split(pattern)))), Words(subject))
  }

  /** The empty subject: one empty token for the local matcher, no words for the exchange. */
  lemma EmptySubject(p: seq<string>)
    requires p != [] && Acceptable(p) && "#" !in p
    ensures Matches(p, [""]) <==> p == [">"] || p == ["*"]
    ensures TopicMatch(TopicTokens(p), []) <==> p == [">"]
  {
    assert p[0] in p;
    if p[|p| - 1] == ">" {
      FirstTailIs(p, |p| - 1);
    } else {
      FirstTailIs(p, |p|);
    }
    assert [">"][0] == ">" && (p == ["*"] <==> |p| == 1 && p[0] == "*");
    if p == [">"] {
      HashMatchesAll([]);
    }
  }

  /** For a pattern without a `#` token the exchange and the local matcher agree on every subject,
      save that only the local matcher lets a lone `*` take the empty subject. */
  lemma {:induction false} TranslationPreservesMeaning(pattern: string, subject: string)
    requires pattern != "" && Acceptable(Split(pattern)) && "#" !in Split(pattern)
    ensures (BrokerMatches(pattern, subject) <==> Matches(Split(pattern), Split(subject)))
       <==> !(subject == "" && Split(pattern) == ["*"])
  {
    KeyHasItsTokens(Split(pattern));
    if subject == "" {
      EmptySubject(Split(pattern));
    } else {
      TokensPreserveMeaning(Split(pattern), Split(subject));
    }
  }

  /** One plain token for each pattern token. */
  function Plain(p: seq<string>): (s: seq<string>)
    ensures |s| == |p|
    ensures forall i :: 0 <= i < |p| ==> s[i] == if p[i] in ["*", "#", ">"] then "x" else p[i]
  {
    seq(|p|, i requires 0 <= i < |p| => if p[i] in ["*", "#", ">"] then "x" else p[i])
  }

  lemma PlainOne(p: seq<string>)
    requires |p| == 1 && Acceptable(p)
    ensures TopicMatch(TopicTokens(p), Plain(p))
  {
    var s := Plain(p);
    if p[0] == ">" || p[0] == "#" {
      HashMatchesAll(s);
      assert TopicTokens(p) == ["#"];
    } else {
      assert p[1..] == [] && s[1..] == [];
    }
  }

  /** The first token takes the first word when the rest takes the rest. */
  lemma {:induction false} TakeFirst(k: seq<string>, s: seq<string>)
    requires k != [] && s != [] && TopicMatch(k[1..], s[1..]) && (k[0] == "#" || k[0] == "*" || k[0] == s[0])
    ensures TopicMatch(k, s)
  {
    if k[0] == "#" {
      TakeOneByHash(k, s);
    }
  }

  lemma TokensOfRest(p: seq<string>)
    requires |p| > 1 && Acceptable(p)
    ensures Acceptable(p[1..]) && Plain(p)[1..] == Plain(p[1..])
    ensures TopicTokens(p)[0] == p[0] && p[0] != ">"
    ensures TopicTokens(p)[1..] == if |p| == 2 && p[1] == ">" then ["*", "#"] else TopicTokens(p[1..])
  {
    assert p[1..][|p| - 2] == p[|p| - 1];
  }

  /** Read as an AMQP key, every token of `p` takes the token `Plain` puts in its place. */
  lemma {:induction false} BrokerTakesPlain(p: seq<string>)
    requires p != [] && Acceptable(p)
    ensures TopicMatch(TopicTokens(p), Plain(p))
  {
    if |p| == 1 {
      PlainOne(p);
    } else {
      TokensOfRest(p);
      if |p| == 2 && p[1] == ">" {
        TailMatches(Plain(p)[1..]);
      } else {
        BrokerTakesPlain(p[1..]);
      }
      TakeFirst(TopicTokens(p), Plain(p));
    }
  }

  lemma {:induction false} TakeOneByHash(k: seq<string>, s: seq<string>)
    requires k != [] && s != [] && k[0] == "#" && TopicMatch(k[1..], s[1..])
    ensures TopicMatch(k, s)
  {
  }

  lemma PlainIsNotLiteralHash(p: seq<string>, i: nat)
    requires Acceptable(p) && i < |p| && p[i] == "#"
    ensures !Matches(p, Plain(p))
  {
  }

  lemma PlainIsASubject(p: seq<string>)
    requires p != [] && Acceptable(p) && forall t :: t in p ==> '.' !in t
    ensures Words(Join(Plain(p))) == Split(Join(Plain(p))) == Plain(p)
  {
    var s := Plain(p);
    assert forall t :: t in s ==> '.' !in t && t != "" by {
      assert forall j :: 0 <= j < |p| ==> p[j] in p;
    }
    SplitOfJoin(s);
    assert s[0] in s;
  }

  /** A `#` token passes through the translation as a wildcard, and the local matcher takes it
      literally: some subject tells them apart. */
  lemma HashDiffers(pattern: string) returns (subject: string)
    requires pattern != "" && Acceptable(Split(pattern)) && "#" in Split(pattern)
    ensures BrokerMatches(pattern, subject) && !Matches(Split(pattern), Split(subject))
  {
    var p := Split(pattern);
    var i :| 0 <= i < |p| && p[i] == "#";
    PlainIsASubject(p);
    KeyHasItsTokens(p);
    BrokerTakesPlain(p);
    PlainIsNotLiteralHash(p, i);
    subject := Join(Plain(p));
  }

  /** The two matchers agree on all subjects, the empty one included, exactly when the pattern has
      no `#` token and is not a lone `*`. */
  lemma {:induction false} AgreementIsExact(pattern: string)
    requires pattern != "" && Acceptable(Split(pattern))
    ensures "#" !in Split(pattern) && Split(pattern) != ["*"] <==>
              forall subject: string :: BrokerMatches(pattern, subject) <==> Matches(Split(pattern), Split(subject))
  {
    if "#" in Split(pattern) {
      var subject := HashDiffers(pattern);
      assert !(BrokerMatches(pattern, subject) <==> Matches(Split(pattern), Split(subject)));
    } else {
      forall subject: string
        ensures (BrokerMatches(pattern, subject) <==> Matches(Split(pattern), Split(subject)))
           <==> !(subject == "" && Split(pattern) == ["*"])
      {
        TranslationPreservesMeaning(pattern, subject);
      }
      var empty: string := "";
      assert Split(pattern) == ["*"] ==> !(BrokerMatches(pattern, empty) <==> Matches(Split(pattern), Split(empty)));
    }
  }
}
