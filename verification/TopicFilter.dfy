/** Topic filters on the client: the validator and the recursive string matcher, against the level-by-level
    meaning of section 4.7 of MQTT 3.1.1 (without the rule for topics that start with `$`). */
module TopicFilter {

  /* Levels */

  /** Position of the first separator, or the length if there is none. */
  function Sep(s: string): (p: nat)
    ensures p <= |s| && '/' !in s[..p] && (p < |s| ==> s[p] == '/')
  {
    if s == "" || s[0] == '/' then 0 else Sep(s[1..]) + 1
  }

  function Levels(s: string): (ls: seq<string>)
    ensures ls != []
    decreases |s|
  {
    var p := Sep(s);
    if p == |s| then [s] else [s[..p]] + Levels(s[p + 1..])
  }

  function Last(ls: seq<string>): string
    requires ls != []
  {
    ls[|ls| - 1]
  }

  /* What a filter means */

  predicate LevelOk(f: string, t: string) {
    f == "+" || f == t
  }

  /** `+` stands for one level, a final `#` for zero or more. */
  predicate Matches(fl: seq<string>, tl: seq<string>)
    requires fl != []
  {
    if Last(fl) == "#"
    then |fl| - 1 <= |tl| && forall i :: 0 <= i < |fl| - 1 ==> LevelOk(fl[i], tl[i])
    else |fl| == |tl| && forall i :: 0 <= i < |fl| ==> LevelOk(fl[i], tl[i])
  }

  predicate WildcardFree(l: string) {
    '+' !in l && '#' !in l
  }

  /** Each level is free of wildcards, or a lone `+`, or a lone `#` in last place. */
  predicate ValidLevels(ls: seq<string>) {
    forall i :: 0 <= i < |ls| ==> WildcardFree(ls[i]) || ls[i] == "+" || (ls[i] == "#" && i == |ls| - 1)
  }

  /* The matcher */

  /** `isTopicMatch`. Reading the first character of an empty filter counts as "not a wildcard". */
  predicate IsTopicMatch(filter: string, topic: string)
    decreases |filter|
  {
    if filter == "#" then true
    else if topic == "" then filter == ""
    else
      var fs, ts := Sep(filter), Sep(topic);
      if fs == |filter| && ts != |topic| then false
      else if ts != |topic| then
        if (filter[0] == '+' && fs == 1) || filter[..fs] == topic[..ts]
        then IsTopicMatch(filter[fs + 1..], topic[ts + 1..])
        else false
      else if fs != |filter| then
        if |filter| <= fs + 1 then false
        else if (filter[0] == '+' && fs == 1) || filter[..fs] == topic
        then IsTopicMatch(filter[fs + 1..], "")
        else false
      else (filter != "" && filter[0] == '+' && |filter| == 1) || filter == topic
  }

  /** The topic's last level is not empty, or the filter settles before it with `#`, or ends there in an empty
      level of its own. A caller can check this on the filter and the topic. */
  predicate EndsWell(fl: seq<string>, tl: seq<string>)
    requires fl != [] && tl != []
  {
    Last(tl) != "" || (Last(fl) == "#" && |fl| <= |tl|) || (|fl| == |tl| && Last(fl) == "")
  }

  lemma MatchesCons(fl: seq<string>, tl: seq<string>)
    requires |fl| > 1 && |tl| > 0
    ensures Matches(fl, tl) <==> LevelOk(fl[0], tl[0]) && Matches(fl[1..], tl[1..])
  {
    assert Last(fl) == Last(fl[1..]);
    if LevelOk(fl[0], tl[0]) && Matches(fl[1..], tl[1..]) {
      var n := if Last(fl) == "#" then |fl| - 1 else |fl|;
      forall i | 0 <= i < n ensures LevelOk(fl[i], tl[i]) {
        assert i > 0 ==> fl[i] == fl[1..][i - 1] && tl[i] == tl[1..][i - 1];
      }
    }
  }

  lemma SingleLevel(s: string)
    ensures |Levels(s)| == 1 <==> Sep(s) == |s|
    ensures Levels(s) == ["#"] <==> s == "#"
  {
    if s == "#" {
      assert Sep(s) == 1;
    }
  }

  /** For every filter and every topic, the matcher decides the level semantics together with EndsWell. */
  lemma {:induction false} MatcherExact(filter: string, topic: string)
    ensures IsTopicMatch(filter, topic) <==>
              Matches(Levels(filter), Levels(topic)) && EndsWell(Levels(filter), Levels(topic))
    decreases |filter|
  {
    hide Matches;
    var fl, tl := Levels(filter), Levels(topic);
    var fs, ts := Sep(filter), Sep(topic);
    SingleLevel(filter);
    SingleLevel(topic);
    if filter == "#" {
      HashMatches(tl);
    } else if topic == "" {
      EmptyTopic(filter);
    } else if fs == |filter| && ts != |topic| {
      OneLevelFilter(filter, tl);
    } else if ts != |topic| {
      MatcherExact(filter[fs + 1..], topic[ts + 1..]);
      BothHaveMore(filter, topic);
    } else if fs != |filter| {
      FilterHasMore(filter, topic);
    } else {
      OneLevelFilter(filter, tl);
    }
  }

  lemma FirstLevel(filter: string, level: string)
    requires Sep(filter) != |filter|
    ensures var fs := Sep(filter);
            (filter[0] == '+' && fs == 1) || filter[..fs] == level <==> LevelOk(Levels(filter)[0], level)
  {
    assert filter[..Sep(filter)] == "+" <==> filter[0] == '+' && Sep(filter) == 1;
  }

  lemma BothHaveMore(filter: string, topic: string)
    requires filter != "#" && Sep(topic) != |topic| && Sep(filter) != |filter|
    requires var f, t := filter[Sep(filter) + 1..], topic[Sep(topic) + 1..];
             IsTopicMatch(f, t) <==> Matches(Levels(f), Levels(t)) && EndsWell(Levels(f), Levels(t))
    ensures IsTopicMatch(filter, topic) <==>
              Matches(Levels(filter), Levels(topic)) && EndsWell(Levels(filter), Levels(topic))
  {
    hide Matches;
    var fl, tl := Levels(filter), Levels(topic);
    assert fl[1..] == Levels(filter[Sep(filter) + 1..]) && tl[1..] == Levels(topic[Sep(topic) + 1..]);
    FirstLevel(filter, topic[..Sep(topic)]);
    MatchesCons(fl, tl);
    assert EndsWell(fl, tl) == EndsWell(fl[1..], tl[1..]);
  }

  lemma FilterHasMore(filter: string, topic: string)
    requires filter != "#" && topic != "" && Sep(topic) == |topic| && Sep(filter) != |filter|
    ensures IsTopicMatch(filter, topic) <==>
              Matches(Levels(filter), Levels(topic)) && EndsWell(Levels(filter), Levels(topic))
  {
    hide Matches;
    var fl, tl := Levels(filter), Levels(topic);
    var rest := filter[Sep(filter) + 1..];
    assert fl[1..] == Levels(rest) && tl[1..] == [];
    FirstLevel(filter, topic);
    MatchesCons(fl, tl);
    NoMoreLevels(rest);
    SingleLevel(rest);
  }

  lemma HashMatches(tl: seq<string>)
    ensures Matches(["#"], tl)
  {
  }

  lemma OneLevelFilter(f: string, tl: seq<string>)
    requires f != "#" && tl != []
    ensures Matches([f], tl) <==> |tl| == 1 && LevelOk(f, tl[0])
  {
  }

  /** Without topic levels only `#` matches. */
  lemma NoMoreLevels(f: string)
    ensures Matches(Levels(f), []) <==> Levels(f) == ["#"]
  {
  }

  lemma EmptyTopic(f: string)
    requires f != "#"
    ensures Matches(Levels(f), [""]) && EndsWell(Levels(f), [""]) <==> f == ""
  {
    SingleLevel(f);
  }

  /** The promise for topics that end in a level of their own: the matcher is the level semantics. */
  lemma MatcherMeansLevels(filter: string, topic: string)
    requires topic != "" && topic[|topic| - 1] != '/'
    ensures IsTopicMatch(filter, topic) <==> Matches(Levels(filter), Levels(topic))
  {
    MatcherExact(filter, topic);
    LastLevel(topic);
  }

  lemma {:induction false} LastLevel(s: string)
    ensures Last(Levels(s)) == "" <==> s == "" || s[|s| - 1] == '/'
    decreases |s|
  {
    var p := Sep(s);
    if p < |s| {
      LastLevel(s[p + 1..]);
    }
  }

  /** It is not so for topics that end in a separator: `+` matches the empty last level, the matcher does not. */
  lemma TrailingSeparator()
    ensures ValidLevels(Levels("a/+")) && Matches(Levels("a/+"), Levels("a/")) && !IsTopicMatch("a/+", "a/")
  {
    assert Sep("a/+") == 1 && Sep("a/") == 1 && Sep("+") == 1 && Sep("") == 0;
    assert "a/+"[2..] == "+" && "a/"[2..] == "" && "a/+"[..1] == "a" && "a/"[..1] == "a";
    assert Levels("a/+") == ["a", "+"] && Levels("a/") == ["a", ""];
    MatcherExact("a/+", "a/");
  }

  /* The validator */

  /** What the validator checks around position `i`. */
  predicate PosOk(f: string, i: nat)
    requires i < |f|
  {
    && (f[i] == '#' ==> i == |f| - 1 && (i == 0 || f[i - 1] == '/'))
    && (f[i] == '+' ==> (i == |f| - 1 || f[i + 1] == '/') && (i == 0 || f[i - 1] == '/'))
  }

  predicate PosValid(f: string) {
    forall i :: 0 <= i < |f| ==> PosOk(f, i)
  }

  lemma PosValidOneLevel(f: string)
    requires '/' !in f
    ensures PosValid(f) <==> WildcardFree(f) || f == "+" || f == "#"
  {
    if PosValid(f) && !WildcardFree(f) {
      var i :| 0 <= i < |f| && (f[i] == '+' || f[i] == '#');
      assert PosOk(f, i);
    }
  }

  lemma PosOkRest(f: string, p: nat, i: nat)
    requires p < |f| && f[p] == '/' && i < |f| - p - 1
    ensures PosOk(f[p + 1..], i) <==> PosOk(f, p + 1 + i)
  {
    assert i > 0 ==> f[p + 1..][i - 1] == f[p + i];
  }

  /** The characters of the first level. */
  lemma PosOkLevel(f: string, p: nat)
    requires p < |f| && f[p] == '/' && '/' !in f[..p]
    ensures (forall i: nat :: i < p ==> PosOk(f, i)) <==> WildcardFree(f[..p]) || f[..p] == "+"
  {
    var level := f[..p];
    assert forall i :: 0 <= i < p ==> level[i] == f[i] && level[i] in level;
    if (forall i: nat :: i < p ==> PosOk(f, i)) && !WildcardFree(level) {
      var i :| 0 <= i < p && (level[i] == '+' || level[i] == '#');
      assert PosOk(f, i);
    }
  }

  lemma PosValidSplit(f: string)
    requires Sep(f) < |f|
    ensures var p := Sep(f);
            PosValid(f) <==> (WildcardFree(f[..p]) || f[..p] == "+") && PosValid(f[p + 1..])
  {
    hide PosOk;
    var p := Sep(f);
    var rest := f[p + 1..];
    PosOkLevel(f, p);
    forall i: nat | i < |rest| ensures PosOk(rest, i) <==> PosOk(f, p + 1 + i) {
      PosOkRest(f, p, i);
    }
    PosOkSep(f, p);
    if (WildcardFree(f[..p]) || f[..p] == "+") && PosValid(rest) {
      forall i: nat | i < |f| ensures PosOk(f, i) {
        if i > p {
          assert PosOk(rest, i - p - 1);
        }
      }
    }
  }

  lemma PosOkSep(f: string, i: nat)
    requires i < |f| && f[i] == '/'
    ensures PosOk(f, i)
  {
  }

  /** Checking around each character is checking each level. */
  lemma {:induction false} PosValidIsLevels(f: string)
    ensures PosValid(f) <==> ValidLevels(Levels(f))
    decreases |f|
  {
    var p := Sep(f);
    if p == |f| {
      assert f[..p] == f;
      PosValidOneLevel(f);
      assert Levels(f)[0] == f;
    } else {
      PosValidSplit(f);
      PosValidIsLevels(f[p + 1..]);
      ValidCons(f[..p], Levels(f[p + 1..]));
    }
  }

  lemma ValidCons(l: string, rest: seq<string>)
    requires rest != []
    ensures ValidLevels([l] + rest) <==> (WildcardFree(l) || l == "+") && ValidLevels(rest)
  {
    var ls := [l] + rest;
    assert forall i :: 0 < i < |ls| ==> ls[i] == rest[i - 1];
    assert forall i :: 0 <= i < |rest| ==> rest[i] == ls[i + 1];
    assert ls[0] == l;
  }

  /** `verifySubFilterInternal`: with checking on it accepts exactly the non-empty filters with valid levels. */
  method VerifySubFilter(filter: string, verifyOutgoingTopic: bool) returns (ok: bool)
    ensures ok <==> !verifyOutgoingTopic || (filter != "" && ValidLevels(Levels(filter)))
  {
    if !verifyOutgoingTopic {
      return true;
    }
    PosValidIsLevels(filter);

    if filter == "" {
      return false;
    }

    var pos := 0;
    var lastSep := -1;
    while pos < |filter|
      invariant 0 <= pos <= |filter|
      invariant -1 <= lastSep < pos && (0 <= lastSep ==> filter[lastSep] == '/')
      invariant forall i :: lastSep < i < pos ==> filter[i] != '/'
      invariant forall i :: 0 <= i < pos ==> PosOk(filter, i)
    {
      var ch := filter[pos];
      if ch == '/' {
        lastSep := pos;
      } else if ch == '#' {
        if pos + 1 != |filter| {
          assert !PosOk(filter, pos);
          return false;
        }
        if pos == 0 {
          return true;
        }
        if lastSep < 0 || pos - 1 != lastSep {
          assert !PosOk(filter, pos);
          return false;
        }
        return true;
      } else if ch == '+' {
        if pos + 1 != |filter| && filter[pos + 1] != '/' {
          assert !PosOk(filter, pos);
          return false;
        }
        if pos != 0 && (lastSep < 0 || pos - 1 != lastSep) {
          assert !PosOk(filter, pos);
          return false;
        }
      }
      pos := pos + 1;
    }
    return true;
  }
}
