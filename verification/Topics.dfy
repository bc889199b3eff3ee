/** Topic filters and topic names: the single-pass filter scanner, the recursive
    matcher, and the level-wise definitions of section 4.7 of MQTT Version 5.0
    that they are held against. */
module Topics {

  const SEP := '/'
  const MULTI := '#'
  const SINGLE := '+'

  // ----- levels

  /** Position of the first separator, or the length. */
  function FirstSep(s: string): (k: nat)
    ensures k <= |s|
    ensures k < |s| ==> s[k] == SEP
    ensures forall j :: 0 <= j < k ==> s[j] != SEP
  {
    if s == [] || s[0] == SEP then 0 else 1 + FirstSep(s[1..])
  }

  /** The levels between separators; there is always at least one. */
  function Levels(s: string): (r: seq<string>)
    ensures |r| >= 1
  {
    var k := FirstSep(s);
    if k == |s| then [s] else [s[..k]] + Levels(s[k + 1..])
  }

  // ----- matching

  /** Level-wise matching: `+` stands for one level, a final `#` for any number. */
  predicate LevelMatch(f: seq<string>, t: seq<string>) {
    if f == [[MULTI]] then true
    else if f == [] || t == [] then f == [] && t == []
    else (f[0] == [SINGLE] || f[0] == t[0]) && LevelMatch(f[1..], t[1..])
  }

  /** The matcher of the library. */
  function IsTopicMatch(filter: string, topic: string): bool
    decreases |filter| + |topic|
  {
    if |filter| == 1 && filter[0] == MULTI then true
    else if topic == [] then filter == []
    else
      var f := FirstSep(filter);
      var t := FirstSep(topic);
      if f == |filter| && t < |topic| then false
      else if t < |topic| then
        ((filter[0] == SINGLE && f == 1) || filter[..f] == topic[..t]) &&
        IsTopicMatch(filter[f + 1..], topic[t + 1..])
      else if f < |filter| then
        if |filter| <= f + 1 then false
        else ((filter[0] == SINGLE && f == 1) || filter[..f] == topic) && IsTopicMatch(filter[f + 1..], [])
      else (|filter| == 1 && filter[0] == SINGLE) || filter == topic
  }

  /** Filter tails that should match one empty level but are not seen to. */
  predicate BlindTail(f: seq<string>) {
    f == [[SINGLE]] || f == [[SINGLE], [MULTI]] || f == [[], [MULTI]]
  }

  /** The topic's last level is empty and the filter has a blind tail facing it. */
  predicate Blind(f: seq<string>, t: seq<string>) {
    t != [] && t[|t| - 1] == [] && |f| >= |t| && BlindTail(f[|t| - 1..])
  }

  /** For every filter and every topic the matcher computes the level-wise match,
      except that it misses a match in exactly the blind cases. */
  lemma {:induction false} MatcherIsLevelMatch(filter: string, topic: string)
    ensures IsTopicMatch(filter, topic) <==>
            LevelMatch(Levels(filter), Levels(topic)) && !Blind(Levels(filter), Levels(topic))
    decreases |filter| + |topic|
  {
    var f, t := FirstSep(filter), FirstSep(topic);
    if filter == [MULTI] {
      OnlyMulti(filter);
      OneLevelNotBlind(Levels(topic));
    } else if topic == [] {
      EmptyTopic(filter);
    } else if t < |topic| && f < |filter| {
      MatcherIsLevelMatch(filter[f + 1..], topic[t + 1..]);
      BothSeparated(Levels(filter), Levels(topic));
      assert filter[..f] == [SINGLE] <==> filter[0] == SINGLE && f == 1;
    } else if t < |topic| {
      FilterEnds(filter, Levels(topic));
    } else if f < |filter| {
      TopicEnds(filter, topic);
    } else {
      BothEnd(filter, topic);
    }
  }

  lemma OneLevelNotBlind(T: seq<string>)
    ensures LevelMatch([[MULTI]], T) && !Blind([[MULTI]], T)
  {
  }

  lemma FilterEnds(filter: string, T: seq<string>)
    requires FirstSep(filter) == |filter| && filter != [MULTI] && |T| > 1
    ensures !LevelMatch(Levels(filter), T)
  {
    assert Levels(filter) == [filter];
  }

  lemma BothEnd(filter: string, topic: string)
    requires FirstSep(filter) == |filter| && FirstSep(topic) == |topic| && topic != [] && filter != [MULTI]
    ensures LevelMatch(Levels(filter), Levels(topic)) <==> filter == [SINGLE] || filter == topic
    ensures !Blind(Levels(filter), Levels(topic))
  {
    assert Levels(filter) == [filter] && Levels(topic) == [topic];
  }

  lemma EmptyTopic(filter: string)
    ensures Levels([]) == [[]]
    ensures (filter == [] || filter == [MULTI]) <==>
            LevelMatch(Levels(filter), [[]]) && !Blind(Levels(filter), [[]])
  {
  }

  lemma BothSeparated(F: seq<string>, T: seq<string>)
    requires |F| > 1 && |T| > 1
    ensures LevelMatch(F, T) <==> (F[0] == [SINGLE] || F[0] == T[0]) && LevelMatch(F[1..], T[1..])
    ensures Blind(F, T) == Blind(F[1..], T[1..])
  {
  }

  lemma OnlyMulti(s: string)
    ensures Levels(s) == [[MULTI]] <==> s == [MULTI]
  {
    assert FirstSep([MULTI]) == 1;
  }

  lemma TopicEnds(filter: string, topic: string)
    requires topic != [] && FirstSep(topic) == |topic| && FirstSep(filter) < |filter|
    ensures IsTopicMatch(filter, topic) <==>
            LevelMatch(Levels(filter), Levels(topic)) && !Blind(Levels(filter), Levels(topic))
  {
    var f := FirstSep(filter);
    var rest := filter[f + 1..];
    assert Levels(topic) == [topic];
    assert Levels(filter) == [filter[..f]] + Levels(rest);
    OnlyMulti(rest);
    AgainstOneLevel(filter[..f], Levels(rest), topic);
    assert filter[..f] == [SINGLE] <==> filter[0] == SINGLE && f == 1;
  }

  lemma AgainstOneLevel(level: string, rest: seq<string>, topic: string)
    requires rest != []
    ensures LevelMatch([level] + rest, [topic]) <==>
            (level == [SINGLE] || level == topic) && rest == [[MULTI]]
  {
    assert ([level] + rest)[1..] == rest;
  }

  /** A topic that does not end with a separator is matched exactly level by level. */
  lemma MatcherExactOnFullTopics(filter: string, topic: string)
    requires topic != [] && topic[|topic| - 1] != SEP
    ensures IsTopicMatch(filter, topic) <==> LevelMatch(Levels(filter), Levels(topic))
  {
    MatcherIsLevelMatch(filter, topic);
    LastLevel(topic);
  }

  lemma {:induction false} LastLevel(s: string)
    ensures Levels(s)[|Levels(s)| - 1] == [] <==> s == [] || s[|s| - 1] == SEP
  {
    var k := FirstSep(s);
    if k < |s| {
      LastLevel(s[k + 1..]);
    } else {
      assert s == s[..k];
    }
  }

  /** The filter "a/+" does cover the topic "a/", but the matcher says no. */
  lemma MatcherMissesEmptyLastLevel()
    ensures LevelMatch(Levels("a/+"), Levels("a/")) && !IsTopicMatch("a/+", "a/")
  {
    assert Levels("+") == ["+"] && Levels("") == [""];
    FirstSepIs("a/+", 1);
    FirstSepIs("a/", 1);
    assert "a/+"[2..] == "+" && "a/"[2..] == "" && "a/+"[..1] == "a/"[..1] == "a";
    assert Levels("a/+") == ["a"] + Levels("+") && Levels("a/") == ["a"] + Levels("");
    MatcherIsLevelMatch("a/+", "a/");
  }

  // ----- which filters are acceptable

  ghost predicate WildcardFree(level: string) {
    MULTI !in level && SINGLE !in level
  }

  /** Every level is plain, a lone `+`, or, at the end, a lone `#`. */
  ghost predicate GoodLevels(f: seq<string>) {
    forall i :: 0 <= i < |f| ==> WildcardFree(f[i]) || f[i] == [SINGLE] || (f[i] == [MULTI] && i == |f| - 1)
  }

  const SHARE: string := "$share"

  predicate IsShared(f: seq<string>) {
    |f| > 1 && f[0] == SHARE
  }

  /** Shared subscriptions ("$share/name/filter"): a plain non-empty name, then a non-empty filter. */
  ghost predicate GoodShare(f: seq<string>) {
    IsShared(f) ==> |f| > 2 && f[1] != [] && WildcardFree(f[1]) && f[2..] != [[]]
  }

  /** The grammar of subscription filters, given what the broker announced. */
  ghost predicate Acceptable(filter: string, sharedSubs: bool, wildcards: bool) {
    var f := Levels(filter);
    && filter != []
    && GoodLevels(f) && GoodShare(f)
    && (IsShared(f) ==> sharedSubs)
    && (!WildcardFree(filter) ==> wildcards)
  }

  // ----- the grammar by position

  ghost predicate AtStart(s: string, i: nat)
    requires i < |s|
  {
    i == 0 || s[i - 1] == SEP
  }

  ghost predicate GoodAt(s: string, i: nat)
    requires i < |s|
  {
    && (s[i] == MULTI ==> i == |s| - 1 && AtStart(s, i))
    && (s[i] == SINGLE ==> AtStart(s, i) && (i + 1 == |s| || s[i + 1] == SEP))
  }

  ghost predicate GoodPositions(s: string) {
    forall i :: 0 <= i < |s| ==> GoodAt(s, i)
  }

  lemma GoodLastLevel(s: string)
    requires FirstSep(s) == |s|
    ensures GoodPositions(s) <==> WildcardFree(s) || s == [SINGLE] || s == [MULTI]
  {
    assert GoodPositions(s) ==> forall i :: 0 <= i < |s| && (s[i] == SINGLE || s[i] == MULTI) ==> GoodAt(s, i);
  }

  /** Positions of a filter whose first level ends at `k`, judged piece by piece. */
  lemma GoodInnerLevel(s: string, k: nat)
    requires k < |s| && FirstSep(s) == k
    ensures (forall i :: 0 <= i < k ==> GoodAt(s, i)) <==> WildcardFree(s[..k]) || s[..k] == [SINGLE]
  {
    var l := s[..k];
    assert forall i :: 0 <= i < k ==> l[i] == s[i];
    if forall i :: 0 <= i < k ==> GoodAt(s, i) {
      assert forall i :: 0 <= i < k ==> (l[i] == SINGLE ==> GoodAt(s, i)) && (l[i] == MULTI ==> GoodAt(s, i));
    }
  }

  lemma GoodBehind(s: string, k: nat)
    requires k < |s| && s[k] == SEP
    ensures (forall i :: k < i < |s| ==> GoodAt(s, i)) <==> GoodPositions(s[k + 1..])
  {
    var r := s[k + 1..];
    forall j | 0 <= j < |r| ensures GoodAt(r, j) <==> GoodAt(s, k + 1 + j) {
    }
    if GoodPositions(r) {
      forall i | k < i < |s| ensures GoodAt(s, i) {
        assert GoodAt(r, i - k - 1);
      }
    }
  }

  lemma GoodLevelsCons(l: string, rest: seq<string>)
    requires rest != []
    ensures GoodLevels([l] + rest) <==> (WildcardFree(l) || l == [SINGLE]) && GoodLevels(rest)
  {
    var f := [l] + rest;
    if GoodLevels(f) {
      assert WildcardFree(f[0]) || f[0] == [SINGLE];
      forall i | 0 <= i < |rest|
        ensures WildcardFree(rest[i]) || rest[i] == [SINGLE] || (rest[i] == [MULTI] && i == |rest| - 1)
      {
        assert f[i + 1] == rest[i];
      }
    }
  }

  /** Judging a filter character by character is judging it level by level. */
  lemma {:induction false} PositionsAreLevels(s: string)
    ensures GoodPositions(s) <==> GoodLevels(Levels(s))
  {
    var k := FirstSep(s);
    if k == |s| {
      GoodLastLevel(s);
      assert Levels(s) == [s] && Levels(s)[0] == s;
    } else {
      PositionsAreLevels(s[k + 1..]);
      GoodInnerLevel(s, k);
      GoodBehind(s, k);
      GoodLevelsCons(s[..k], Levels(s[k + 1..]));
      SplitPositions(s, k);
    }
  }

  lemma SplitPositions(s: string, k: nat)
    requires k < |s| && s[k] == SEP
    ensures GoodPositions(s) <==>
            (forall i :: 0 <= i < k ==> GoodAt(s, i)) && (forall i :: k < i < |s| ==> GoodAt(s, i))
  {
    assert GoodAt(s, k);
  }

  // ----- the share prefix

  const PREFIX: string := "$share/"

  lemma FirstSepIs(s: string, k: nat)
    requires k < |s| && s[k] == SEP && forall j :: 0 <= j < k ==> s[j] != SEP
    ensures FirstSep(s) == k
  {
  }

  lemma SharedIsPrefixed(filter: string)
    ensures IsShared(Levels(filter)) <==> PREFIX <= filter
    ensures PREFIX <= filter ==> Levels(filter) == [SHARE] + Levels(filter[7..])
  {
    assert PREFIX == SHARE + [SEP];
    var k := FirstSep(filter);
    if PREFIX <= filter {
      assert forall j :: 0 <= j < 7 ==> filter[j] == PREFIX[j];
      FirstSepIs(filter, 6);
      assert filter[..6] == SHARE;
    }
    assert k < |filter| ==> filter[..k + 1] == filter[..k] + [SEP];
  }

  /** What follows the prefix: a plain non-empty name, a separator, something more. */
  ghost predicate NamedRest(rest: string) {
    var k := FirstSep(rest);
    0 < k < |rest| && WildcardFree(rest[..k]) && k + 1 < |rest|
  }

  lemma NamedRestIsGoodShare(filter: string)
    requires PREFIX <= filter
    ensures NamedRest(filter[7..]) <==> GoodShare(Levels(filter))
  {
    SharedIsPrefixed(filter);
    var rest := filter[7..];
    var k := FirstSep(rest);
    var f := Levels(filter);
    if k == |rest| {
      assert Levels(rest) == [rest];
    } else {
      var tail := Levels(rest[k + 1..]);
      assert f == [SHARE, rest[..k]] + tail;
      assert f[2..] == tail;
      EmptyLevels(rest[k + 1..]);
    }
  }

  lemma EmptyLevels(s: string)
    ensures Levels(s) == [[]] <==> s == []
  {
  }

  // ----- the scanner

  /** Reading a C string: the terminator follows the last character. */
  function At(s: string, i: nat): char {
    if i < |s| then s[i] else '\0'
  }

  method IsSharedTopicFilter(filter: string) returns (r: bool)
    requires '\0' !in filter
    ensures r <==> PREFIX <= filter
  {
    var idx := 0;
    while idx < 7
      invariant 0 <= idx <= 7 && idx <= |filter| && PREFIX[..idx] == filter[..idx]
    {
      if At(filter, idx) == '\0' {
        return false;
      }
      if PREFIX[idx] != At(filter, idx) {
        return false;
      }
      idx := idx + 1;
    }
    return true;
  }

  method VerifyShareName(filter: string) returns (ok: bool)
    requires '\0' !in filter && PREFIX <= filter
    ensures ok <==> NamedRest(filter[7..])
  {
    ghost var rest := filter[7..];
    ghost var k := FirstSep(rest);
    var nextIdx := 7;
    if At(filter, nextIdx) == '\0' || At(filter, nextIdx) == SEP {
      return false;
    }
    while At(filter, nextIdx) != SEP
      invariant 7 <= nextIdx <= 7 + k
      invariant WildcardFree(rest[..nextIdx - 7])
      decreases |filter| - nextIdx
    {
      if At(filter, nextIdx) == '\0' {
        return false;
      }
      assert nextIdx - 7 < k ==> filter[nextIdx] in rest[..k] by {
        if nextIdx - 7 < k {
          assert rest[..k][nextIdx - 7] == filter[nextIdx];
        }
      }
      if At(filter, nextIdx) == MULTI || At(filter, nextIdx) == SINGLE {
        return false;
      }
      assert rest[..nextIdx - 6] == rest[..nextIdx - 7] + [filter[nextIdx]];
      nextIdx := nextIdx + 1;
    }
    assert filter[nextIdx] == rest[nextIdx - 7];
    nextIdx := nextIdx + 1;
    return At(filter, nextIdx) != '\0';
  }

  method VerifySubFilter(filter: string, verify: bool, sharedSubs: bool, wildcards: bool) returns (ok: bool)
    requires '\0' !in filter
    ensures ok <==> !verify || Acceptable(filter, sharedSubs, wildcards)
  {
    if !verify {
      return true;
    }
    if At(filter, 0) == '\0' {
      return false;
    }
    SharedIsPrefixed(filter);
    PositionsAreLevels(filter);
    var shared := IsSharedTopicFilter(filter);
    if shared {
      NamedRestIsGoodShare(filter);
      if !sharedSubs {
        return false;
      }
      var named := VerifyShareName(filter);
      if !named {
        return false;
      }
    }
    ok := ScanWildcards(filter, wildcards);
  }

  method ScanWildcards(filter: string, wildcards: bool) returns (ok: bool)
    requires '\0' !in filter
    ensures ok <==> GoodPositions(filter) && (!WildcardFree(filter) ==> wildcards)
  {
    var pos := 0;
    var lastSep := -1;
    while At(filter, pos) != '\0'
      invariant 0 <= pos <= |filter|
      invariant -1 <= lastSep < pos
      invariant 0 <= lastSep ==> filter[lastSep] == SEP
      invariant forall j :: lastSep < j < pos ==> filter[j] != SEP
      invariant forall i :: 0 <= i < pos ==> GoodAt(filter, i)
      invariant forall i :: 0 <= i < pos && (filter[i] == MULTI || filter[i] == SINGLE) ==> wildcards
      decreases |filter| - pos
    {
      var ch := At(filter, pos);
      if ch == SEP {
        lastSep := pos;
        pos := pos + 1;
        continue;
      }
      if ch == MULTI {
        if !wildcards {
          return false;
        }
        if At(filter, pos + 1) != '\0' {
          assert !GoodAt(filter, pos);
          return false;
        }
        if pos == 0 {
          return true;
        }
        if lastSep < 0 || pos - 1 != lastSep {
          assert !GoodAt(filter, pos);
          return false;
        }
        return true;
      }
      if ch != SINGLE {
        pos := pos + 1;
        continue;
      }
      if !wildcards {
        return false;
      }
      var nextCh := At(filter, pos + 1);
      if nextCh != '\0' && nextCh != SEP {
        assert !GoodAt(filter, pos);
        return false;
      }
      if pos == 0 {
        pos := pos + 1;
        continue;
      }
      if lastSep < 0 || pos - 1 != lastSep {
        assert !GoodAt(filter, pos);
        return false;
      }
      pos := pos + 1;
    }
    return true;
  }
}
