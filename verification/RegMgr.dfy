/**
 * The gateway's topic registry: a list of registrations, indexed by topic and by topic id.
 *
 * A list node is a `RegInfo` object and the two maps hold references to the nodes.  `Ordered` is the
 * order in which a map is walked.  Ids are 16-bit values; none of the sums below leaves that range.
 */
module RegMgr {
  import opened Protocol

  const DEFAULT_MIN_TOPIC_ID: nat := 1
  const DEFAULT_MAX_TOPIC_ID: nat := 0xfffe
  const MAX_TOPIC_ID: nat := 0xffff

  /* Short topic names */

  predicate IsByte(c: char) {
    c as int < 0x100
  }

  predicate IsShortTopicName(topic: string) {
    |topic| == 2 && topic[0] !in "#+" && topic[1] !in "#+"
  }

  function ShortTopicNameToId(topic: string): nat
    requires IsShortTopicName(topic)
  {
    (topic[0] as nat * 0x100 + topic[1] as nat % 0x100) % ID_SPACE
  }

  /** The client's reading of a short topic name id. */
  function IdToShortTopicName(id: nat): string
    requires id < ID_SPACE
  {
    [(id / 0x100) as char, (id % 0x100) as char]
  }

  lemma ShortNameRoundTrip(topic: string)
    requires IsShortTopicName(topic) && IsByte(topic[0]) && IsByte(topic[1])
    ensures IdToShortTopicName(ShortTopicNameToId(topic)) == topic
  {
    var hi, lo := topic[0] as int, topic[1] as int;
    assert (hi * 0x100 + lo) / 0x100 == hi && (hi * 0x100 + lo) % 0x100 == lo;
  }

  /* Choosing an id */

  /** The ids of `ids` from `from` on, in increasing order. */
  function Ordered(ids: set<nat>, from: nat): seq<nat>
    decreases ID_SPACE - from
  {
    if ID_SPACE <= from then []
    else if from in ids then [from] + Ordered(ids, from + 1)
    else Ordered(ids, from + 1)
  }

  lemma {:induction false} OrderedMembers(ids: set<nat>, from: nat, x: nat)
    ensures x in Ordered(ids, from) <==> from <= x < ID_SPACE && x in ids
    decreases ID_SPACE - from
  {
    if from < ID_SPACE {
      OrderedMembers(ids, from + 1, x);
    }
  }

  lemma {:induction false} OrderedIncreases(ids: set<nat>, from: nat)
    ensures Increasing(Ordered(ids, from))
    decreases ID_SPACE - from
  {
    if from < ID_SPACE {
      OrderedIncreases(ids, from + 1);
      var rest := Ordered(ids, from + 1);
      forall i | 0 <= i < |rest| ensures from < rest[i] {
        OrderedMembers(ids, from + 1, rest[i]);
      }
    }
  }

  /** The first position `k` (counted from 1) at or after `k` with an id other than `k`, if within the range. */
  function GapScan(a: seq<nat>, k: nat, min: nat, max: nat): nat
    requires 1 <= k <= |a| + 1
    decreases |a| - k
  {
    if k == |a| + 1 then 0
    else if !InPlace(a, k) && min <= k <= max then k
    else GapScan(a, k + 1, min, max)
  }

  /** The id `mapTopic` takes for a new topic without eviction, 0 if it evicts. */
  function Pick(a: seq<nat>, min: nat, max: nat): nat {
    if a == [] then min
    else if a[|a| - 1] < max then Max(a[|a| - 1] + 1, min)
    else if min < a[0] then Min(a[0] - 1, max)
    else GapScan(a, 1, min, max)
  }

  function Max(x: nat, y: nat): nat {
    if x < y then y else x
  }

  function Min(x: int, y: nat): int {
    if x < y then x else y
  }

  ghost predicate Used(a: seq<nat>, first: nat, last: nat) {
    forall id :: first <= id <= last ==> id in a
  }

  ghost predicate Within(id: nat, min: nat, max: nat) {
    min <= id <= max
  }

  ghost predicate FreeIn(a: seq<nat>, id: nat, min: nat, max: nat) {
    min <= id <= max && id !in a
  }

  ghost predicate Ids(a: seq<nat>) {
    Increasing(a) && forall i :: 0 <= i < |a| ==> 1 <= a[i] <= MAX_TOPIC_ID
  }

  /** Distinct positive ids in order are at least as large as their positions. */
  lemma {:induction false} AtLeastPosition(a: seq<nat>, k: nat)
    requires Ids(a) && 1 <= k <= |a|
    ensures k <= a[k - 1]
  {
    if k > 1 {
      AtLeastPosition(a, k - 1);
    }
  }

  /** The `k`th id, counted from 1, is `k`. */
  predicate InPlace(a: seq<nat>, k: nat)
    requires 1 <= k <= |a|
  {
    a[k - 1] == k
  }

  /** An id at its own position has every smaller id before it. */
  lemma {:induction false} Dense(a: seq<nat>, k: nat)
    requires Ids(a) && 1 <= k <= |a|
    ensures InPlace(a, k) <==> Used(a, 1, k)
  {
    AtLeastPosition(a, k);
    if k > 1 {
      Dense(a, k - 1);
      AtLeastPosition(a, k - 1);
      if a[k - 1] == k {
        assert a[k - 2] == k - 1;
      }
    }
    if Used(a, 1, k) {
      assert k in a;
      var i :| 0 <= i < |a| && a[i] == k;
      AtLeastPosition(a, i + 1);
    }
  }

  lemma {:induction false} GapScanFirst(a: seq<nat>, k: nat, min: nat, max: nat)
    requires 1 <= k <= |a| + 1
    ensures var r := GapScan(a, k, min, max);
            && (r != 0 ==> k <= r <= |a| && min <= r <= max && !InPlace(a, r))
            && (forall j :: k <= j <= |a| && (r != 0 ==> j < r) && min <= j <= max ==> InPlace(a, j))
    decreases |a| - k
  {
    if k <= |a| && !(!InPlace(a, k) && min <= k <= max) {
      GapScanFirst(a, k + 1, min, max);
    }
  }

  lemma UsedPrefix(a: seq<nat>, k: nat, max: nat)
    requires k <= max
    ensures Used(a, 1, max) ==> Used(a, 1, k)
  {
  }

  lemma NotBetween(a: seq<nat>, k: nat, id: nat)
    requires Ids(a) && 1 <= k < |a| && a[k - 1] < id < a[k]
    ensures id !in a
  {
    assert forall i :: 0 <= i < |a| ==> a[i] <= a[k - 1] || a[k] <= a[i];
  }

  /** A scan that finds no gap has seen the whole range. */
  lemma ScanFull(a: seq<nat>, min: nat, max: nat)
    requires Ids(a) && 1 <= min <= |a| && min <= max <= a[|a| - 1]
    requires forall j :: 1 <= j <= |a| && min <= j <= max ==> InPlace(a, j)
    ensures Used(a, 1, max)
  {
    if |a| <= max {
      assert InPlace(a, |a|);
    }
    Dense(a, max);
  }

  /** When the scan finds an unused id: it needs at least `min` entries, and counts positions, not ids. */
  lemma GapScanExact(a: seq<nat>, min: nat, max: nat)
    requires Ids(a) && a != [] && 1 <= min <= max && a[0] <= min && max <= a[|a| - 1]
    ensures var r := GapScan(a, 1, min, max);
            && (FreeIn(a, r, min, max) <==> min <= |a| && (min !in a || Used(a, 1, min)) && !Used(a, 1, max))
            && (FreeIn(a, r, min, max) ==> Used(a, min, r - 1))
            && (r == 0 <==> |a| < min || Used(a, 1, max))
  {
    var r := GapScan(a, 1, min, max);
    GapScanFirst(a, 1, min, max);
    if min <= |a| {
      Dense(a, min);
      AtLeastPosition(a, min);
    }
    if r == 0 && min <= |a| {
      ScanFull(a, min, max);
    }
    if r != 0 {
      AtLeastPosition(a, r);
      Dense(a, r);
      if min < r {
        assert InPlace(a, r - 1);
        Dense(a, r - 1);
        NotBetween(a, r - 1, r);
      }
      UsedPrefix(a, r, max);
    }
  }

  /** The branches of `mapTopic` in which the id it takes is an unused one of the range. */
  ghost predicate Allocates(a: seq<nat>, min: nat, max: nat) {
    || a == [] || a[|a| - 1] < max || min < a[0]
    || (min <= |a| && (min !in a || Used(a, 1, min)) && !Used(a, 1, max))
  }

  /** Exactly when a new topic gets an unused id of the range. */
  lemma PickExact(a: seq<nat>, min: nat, max: nat)
    requires Ids(a) && 1 <= min <= max
    ensures FreeIn(a, Pick(a, min, max), min, max) <==> Allocates(a, min, max)
    ensures Pick(a, min, max) == 0 || min <= Pick(a, min, max) <= max
  {
    if a != [] {
      assert forall i :: 0 <= i < |a| ==> a[0] <= a[i] <= a[|a| - 1];
      if a[0] <= min && max <= a[|a| - 1] {
        GapScanExact(a, min, max);
        GapScanFirst(a, 1, min, max);
      }
    }
  }

  /**
   * With a range that starts at 1 an unused id is found whenever there is one, and only a full range
   * leads to eviction.  In the gap scan it is the least one.
   */
  lemma FromOneExact(a: seq<nat>, max: nat)
    requires Ids(a) && 1 <= max
    ensures FreeIn(a, Pick(a, 1, max), 1, max) <==> !Used(a, 1, max)
    ensures Pick(a, 1, max) == 0 <==> Used(a, 1, max)
    ensures a != [] && a[0] <= 1 && max <= a[|a| - 1] && !Used(a, 1, max) ==> Used(a, 1, Pick(a, 1, max) - 1)
  {
    PickExact(a, 1, max);
    if a != [] {
      assert forall i :: 0 <= i < |a| ==> a[0] <= a[i] <= a[|a| - 1];
      if a[0] <= 1 && max <= a[|a| - 1] {
        GapScanExact(a, 1, max);
      } else {
        assert !FreeIn(a, 1, 1, max) ==> 1 in a;
        assert !FreeIn(a, max, 1, max) ==> max in a;
      }
    } else {
      assert 1 !in a;
    }
  }

  /** A range from 2 to 3 with both ids in use: the scan returns an id that is in use. */
  lemma GapScanTakesUsedId()
    ensures Pick([2, 3], 2, 3) == 2
  {
    assert InPlace([2, 3], 1) == false;
    assert GapScan([2, 3], 2, 2, 3) == 2;
  }

  /** A range from 3 to 5 with 4 unused: the scan gives up before it reaches the range. */
  lemma GapScanMissesUnusedId()
    ensures Pick([3, 5], 3, 5) == 0 && FreeIn([3, 5], 4, 3, 5)
  {
    assert GapScan([3, 5], 3, 3, 5) == 0;
    assert GapScan([3, 5], 2, 3, 5) == 0;
  }

  /* The registry */

  class RegInfo {
    const topic: string
    const topicId: nat
    var idType: TopicIdKind

    constructor (topic: string, topicId: nat, idType: TopicIdKind)
      ensures this.topic == topic && this.topicId == topicId && this.idType == idType
    {
      this.topic, this.topicId, this.idType := topic, topicId, idType;
    }
  }

  datatype TopicInfo = TopicInfo(topicId: nat, idType: TopicIdKind, newInsertion: bool)

  /** The list without the node `r`. */
  function Erase(s: seq<RegInfo>, r: RegInfo): seq<RegInfo> {
    if s == [] then [] else if s[0] == r then s[1..] else [s[0]] + Erase(s[1..], r)
  }

  ghost predicate NoDup(s: seq<RegInfo>) {
    forall i, j :: 0 <= i < j < |s| ==> s[i] != s[j]
  }

  lemma {:induction false} EraseMember(s: seq<RegInfo>, r: RegInfo, x: RegInfo)
    requires NoDup(s)
    ensures x in Erase(s, r) <==> x in s && x != r
  {
    if s != [] && s[0] != r {
      EraseMember(s[1..], r, x);
    }
  }

  lemma {:induction false} EraseNoDup(s: seq<RegInfo>, r: RegInfo)
    requires NoDup(s)
    ensures NoDup(Erase(s, r))
  {
    if s != [] && s[0] != r {
      EraseNoDup(s[1..], r);
      EraseMember(s[1..], r, s[0]);
    }
  }

  /** The list and the two maps hold the same registrations; no topic and no id occurs twice. */
  ghost predicate Consistent(regInfos: seq<RegInfo>, byTopic: map<string, RegInfo>, byId: map<nat, RegInfo>) {
    && NoDup(regInfos)
    && (forall r :: r in regInfos ==> 1 <= r.topicId <= MAX_TOPIC_ID)
    && (forall r :: r in regInfos ==> r.topic in byTopic && byTopic[r.topic] == r)
    && (forall r :: r in regInfos ==> r.topicId in byId && byId[r.topicId] == r)
    && (forall t :: t in byTopic ==> byTopic[t] in regInfos && byTopic[t].topic == t)
    && (forall d :: d in byId ==> byId[d] in regInfos && byId[d].topicId == d)
  }

  lemma OrderedIds(regInfos: seq<RegInfo>, byTopic: map<string, RegInfo>, byId: map<nat, RegInfo>)
    requires Consistent(regInfos, byTopic, byId)
    ensures Ids(Ordered(byId.Keys, 0)) && (Ordered(byId.Keys, 0) == [] <==> regInfos == [])
    ensures forall d :: d in Ordered(byId.Keys, 0) <==> d in byId
  {
    OrderedIncreases(byId.Keys, 0);
    var a := Ordered(byId.Keys, 0);
    forall d ensures d in a <==> d in byId {
      OrderedMembers(byId.Keys, 0, d);
    }
    assert forall i :: 0 <= i < |a| ==> a[i] in byId;
    if regInfos != [] {
      assert regInfos[0].topicId in a;
    }
    if a != [] {
      assert byId[a[0]] in regInfos;
    }
  }

  /** A new topic with an unused id. */
  lemma AddKeeps(regInfos: seq<RegInfo>, byTopic: map<string, RegInfo>, byId: map<nat, RegInfo>, r: RegInfo)
    requires Consistent(regInfos, byTopic, byId) && 1 <= r.topicId <= MAX_TOPIC_ID
    requires r !in regInfos && r.topic !in byTopic && r.topicId !in byId
    ensures Consistent(regInfos + [r], byTopic[r.topic := r], byId[r.topicId := r])
  {
  }

  lemma EraseKeeps(regInfos: seq<RegInfo>, byTopic: map<string, RegInfo>, byId: map<nat, RegInfo>, r: RegInfo)
    requires Consistent(regInfos, byTopic, byId) && r in regInfos
    ensures Consistent(Erase(regInfos, r), byTopic - {r.topic}, byId - {r.topicId})
  {
    EraseNoDup(regInfos, r);
    forall x | x in Erase(regInfos, r) ensures x in regInfos && x.topic != r.topic && x.topicId != r.topicId {
      EraseMember(regInfos, r, x);
    }
    forall t | t in byTopic && t != r.topic ensures byTopic[t] in Erase(regInfos, r) {
      EraseMember(regInfos, r, byTopic[t]);
    }
    forall d | d in byId && d != r.topicId ensures byId[d] in Erase(regInfos, r) {
      EraseMember(regInfos, r, byId[d]);
    }
  }

  /** Some topic leads to a node that is not in the list any more. */
  ghost predicate Dangling(regInfos: seq<RegInfo>, byTopic: map<string, RegInfo>) {
    exists t :: t in byTopic && byTopic[t] !in regInfos
  }

  lemma NotConsistent(regInfos: seq<RegInfo>, byTopic: map<string, RegInfo>, byId: map<nat, RegInfo>)
    requires Dangling(regInfos, byTopic)
    ensures !Consistent(regInfos, byTopic, byId)
  {
  }

  lemma StaysDangling(regInfos: seq<RegInfo>, byTopic: map<string, RegInfo>, r: RegInfo)
    requires Dangling(regInfos, byTopic) && r !in byTopic.Values && r.topic !in byTopic
    ensures Dangling(regInfos + [r], byTopic[r.topic := r])
  {
    var t :| t in byTopic && byTopic[t] !in regInfos;
    assert byTopic[r.topic := r][t] !in regInfos + [r];
  }

  lemma ById(regInfos: seq<RegInfo>, byTopic: map<string, RegInfo>, byId: map<nat, RegInfo>, topic: string)
    requires Consistent(regInfos, byTopic, byId) && topic in byTopic
    ensures byTopic[topic].topicId in byId && byId[byTopic[topic].topicId].topic == topic
  {
  }

  /** A second node with the id of another one. */
  lemma UsedId(regInfos: seq<RegInfo>, byTopic: map<string, RegInfo>, byId: map<nat, RegInfo>, r: RegInfo)
    requires r in regInfos && r.topicId in byId && byId[r.topicId] != r
    ensures !Consistent(regInfos, byTopic, byId)
  {
  }

  class Registry {
    var regInfos: seq<RegInfo>
    var byTopic: map<string, RegInfo>
    var byId: map<nat, RegInfo>
    var minTopicId: nat
    var maxTopicId: nat

    ghost predicate Valid()
      reads this
    {
      Consistent(regInfos, byTopic, byId) && 1 <= minTopicId && maxTopicId <= DEFAULT_MAX_TOPIC_ID
    }

    constructor ()
      ensures Valid() && regInfos == [] && minTopicId == 1 && maxTopicId == DEFAULT_MAX_TOPIC_ID
    {
      regInfos, byTopic, byId := [], map[], map[];
      minTopicId, maxTopicId := DEFAULT_MIN_TOPIC_ID, DEFAULT_MAX_TOPIC_ID;
    }

    /** Accepted ranges that contain no usable id, (0, 0) and (0xffff, 0xffff), leave the minimum above the maximum. */
    method SetTopicIdAllocationRange(minVal: nat, maxVal: nat) returns (ok: bool)
      requires Valid() && minVal < ID_SPACE && maxVal < ID_SPACE
      modifies `minTopicId, `maxTopicId
      ensures Valid() && (ok <==> minVal <= maxVal)
      ensures ok ==>
                forall id :: Within(id, minTopicId, maxTopicId) <==> Within(id, minVal, maxVal) && Within(id, 1, 0xfffe)
      ensures ok ==> (minTopicId <= maxTopicId <==> 1 <= maxVal && minVal <= 0xfffe)
      ensures !ok ==> minTopicId == old(minTopicId) && maxTopicId == old(maxTopicId)
    {
      if maxVal < minVal {
        return false;
      }
      minTopicId := Max(minVal, DEFAULT_MIN_TOPIC_ID);
      maxTopicId := Min(maxVal, DEFAULT_MAX_TOPIC_ID);
      return true;
    }

    /** The node goes to the end of the list; a key that is present keeps its node. */
    method Add(topic: string, topicId: nat, idType: TopicIdKind) returns (r: RegInfo)
      modifies `regInfos, `byTopic, `byId
      ensures fresh(r) && r.topic == topic && r.topicId == topicId && r.idType == idType
      ensures regInfos == old(regInfos) + [r]
      ensures byTopic == if topic in old(byTopic) then old(byTopic) else old(byTopic)[topic := r]
      ensures byId == if topicId in old(byId) then old(byId) else old(byId)[topicId := r]
    {
      r := new RegInfo(topic, topicId, idType);
      regInfos := regInfos + [r];
      if topic !in byTopic {
        byTopic := byTopic[topic := r];
      }
      if topicId !in byId {
        byId := byId[topicId := r];
      }
    }

    /** The source reads both map entries unless both are missing, so topic and id must be new or known together. */
    method RegPredefined(topic: string, topicId: nat) returns (ok: bool)
      requires Valid() && topicId < ID_SPACE && (topicId != 0 ==> (topic in byTopic <==> topicId in byId))
      modifies this, regInfos
      ensures Valid() && minTopicId == old(minTopicId) && maxTopicId == old(maxTopicId)
      ensures ok <==> topicId != 0 && (topic in old(byTopic) ==> old(byTopic)[topic].topicId == topicId)
      ensures ok ==> topic in byTopic && byTopic[topic].topicId == topicId && byTopic[topic].idType == Predefined
      ensures ok ==> byTopic == old(byTopic)[topic := byTopic[topic]]
      ensures !ok ==> byTopic == old(byTopic) && byId == old(byId)
      ensures forall t :: t in old(byTopic) && (!ok || t != topic) ==> old(byTopic)[t].idType == old(byTopic[t].idType)
    {
      if topicId == 0 {
        return false;
      }
      if topic !in byTopic && topicId !in byId {
        var r := Add(topic, topicId, Predefined);
        AddKeeps(old(regInfos), old(byTopic), old(byId), r);
        return true;
      }
      if byTopic[topic] != byId[topicId] {
        return false;
      }
      var info := byTopic[topic];
      if info.topic != topic || info.topicId != topicId {
        return false;
      }
      info.idType := Predefined;
      return true;
    }

    /** The id for a new topic, 0 if one must be taken from another topic. */
    method PickId() returns (id: nat)
      requires Valid() && minTopicId <= maxTopicId
      ensures id == Pick(Ordered(byId.Keys, 0), minTopicId, maxTopicId)
    {
      OrderedIds(regInfos, byTopic, byId);
      var a := Ordered(byId.Keys, 0);
      if regInfos == [] {
        return minTopicId;
      }
      if a[|a| - 1] < maxTopicId {
        return Max(a[|a| - 1] + 1, minTopicId);
      }
      if minTopicId < a[0] {
        return Min(a[0] - 1, maxTopicId);
      }
      var prevTopicId, i := 0, 0;
      while i < |a|
        invariant i <= |a| && prevTopicId == i
        invariant GapScan(a, i + 1, minTopicId, maxTopicId) == GapScan(a, 1, minTopicId, maxTopicId)
      {
        var expId := prevTopicId + 1;
        if a[i] != expId && minTopicId <= expId <= maxTopicId {
          return expId;
        }
        prevTopicId := expId;
        i := i + 1;
      }
      return 0;
    }

    ghost predicate Evictable(id: nat)
      reads this, byId.Values
    {
      id in byId && byId[id].idType != Predefined && minTopicId <= id <= maxTopicId
    }

    /** The registration that gives up its id: the first in id order that may. */
    method FindVictim() returns (id: nat)
      requires Valid() && exists v: nat :: Evictable(v)
      ensures Evictable(id) && forall v: nat :: Evictable(v) ==> id <= v
    {
      hide Consistent, Ordered;
      OrderedIds(regInfos, byTopic, byId);
      var a := Ordered(byId.Keys, 0);
      ghost var v: nat :| Evictable(v);
      assert v in a;
      var i := 0;
      while byId[a[i]].idType == Predefined || a[i] < minTopicId || maxTopicId < a[i]
        invariant i < |a| && (forall j :: 0 <= j < i ==> !Evictable(a[j])) && v in a[i..]
        decreases |a| - i
      {
        i := i + 1;
      }
      forall w: nat | Evictable(w) ensures a[i] <= w {
        assert w in a;
      }
      return a[i];
    }

    /** The look-up is by the topic that is being added. */
    method RemoveFromTopicMap(topic: string, info: RegInfo)
      modifies `byTopic
      ensures byTopic ==
              if topic in old(byTopic) && old(byTopic)[topic] == info then old(byTopic) - {topic} else old(byTopic)
    {
      if topic in byTopic && byTopic[topic] == info {
        byTopic := byTopic - {topic};
      }
    }

    /** An id is taken from another topic, which stays in the topic map. */
    method Evict(topic: string) returns (topicId: nat)
      requires Valid() && topic !in byTopic && exists v: nat :: Evictable(v)
      modifies `regInfos, `byTopic, `byId
      ensures Dangling(regInfos, byTopic) && topic !in byTopic
      ensures old(Evictable(topicId)) && forall v: nat :: old(Evictable(v)) ==> topicId <= v
      ensures regInfos == Erase(old(regInfos), old(byId)[topicId]) && byId == old(byId) - {topicId}
      ensures byTopic == old(byTopic)
    {
      topicId := FindVictim();
      forall v: nat | old(Evictable(v)) ensures topicId <= v {
        assert Evictable(v);
      }
      var victim := byId[topicId];
      EraseMember(regInfos, victim, victim);
      RemoveFromTopicMap(topic, victim);
      byId := byId - {topicId};
      regInfos := Erase(regInfos, victim);
      assert byTopic[victim.topic] !in regInfos;
    }

    /** The new topic has a node of its own at the end of the list and under its name.  It is the node of its id too,
        unless the id picked was in use. */
    twostate predicate Inserted(topic: string, id: nat, evicted: bool)
      reads this, byTopic.Values
    {
      && topic in byTopic
      && var node := byTopic[topic];
      && fresh(node) && node.topic == topic && node.topicId == id && node.idType == Normal
      && byTopic == old(byTopic)[topic := node]
      && if evicted then id in old(byId) && regInfos == Erase(old(regInfos), old(byId)[id]) + [node]
                         && byId == old(byId)[id := node]
         else regInfos == old(regInfos) + [node] && byId == if id in old(byId) then old(byId) else old(byId)[id := node]
    }

    method InsertEvicting(topic: string) returns (topicId: nat)
      requires Valid() && topic !in byTopic && exists v: nat :: Evictable(v)
      modifies `regInfos, `byTopic, `byId
      ensures old(Evictable(topicId)) && forall v: nat :: old(Evictable(v)) ==> topicId <= v
      ensures Inserted(topic, topicId, true) && !Valid()
    {
      hide Consistent, Dangling;
      topicId := Evict(topic);
      ghost var infos, topics := regInfos, byTopic;
      var r := Add(topic, topicId, Normal);
      StaysDangling(infos, topics, r);
      NotConsistent(regInfos, byTopic, byId);
      assert byId == old(byId)[topicId := r];
    }

    method MapNewTopic(topic: string) returns (info: TopicInfo)
      requires Valid() && minTopicId <= maxTopicId && topic !in byTopic
      requires Pick(Ordered(byId.Keys, 0), minTopicId, maxTopicId) != 0 || exists v: nat :: Evictable(v)
      modifies `regInfos, `byTopic, `byId
      ensures info.idType == Normal && info.newInsertion
      ensures var picked := old(Pick(Ordered(byId.Keys, 0), minTopicId, maxTopicId));
              if picked != 0 then info.topicId == picked
              else old(Evictable(info.topicId)) && forall v: nat :: old(Evictable(v)) ==> info.topicId <= v
      ensures Inserted(topic, info.topicId, old(Pick(Ordered(byId.Keys, 0), minTopicId, maxTopicId)) == 0)
      ensures Valid() <==> Allocates(old(Ordered(byId.Keys, 0)), minTopicId, maxTopicId)
      ensures Valid() ==>
                && FreeIn(old(Ordered(byId.Keys, 0)), info.topicId, minTopicId, maxTopicId)
                && topic in byTopic && fresh(byTopic[topic]) && byTopic[topic].topic == topic
                && byTopic[topic].idType == Normal
                && byTopic == old(byTopic)[topic := byTopic[topic]]
                && byId == old(byId)[info.topicId := byTopic[topic]] && regInfos == old(regInfos) + [byTopic[topic]]
    {
      hide Consistent, Ordered, Pick, Allocates, Used, Dangling;
      OrderedIds(regInfos, byTopic, byId);
      PickExact(Ordered(byId.Keys, 0), minTopicId, maxTopicId);
      ghost var v: nat :| Pick(Ordered(byId.Keys, 0), minTopicId, maxTopicId) != 0 || Evictable(v);
      var topicId := PickId();
      if topicId == 0 {
        assert Evictable(v);
        forall v: nat | old(Evictable(v)) ensures Evictable(v) {
        }
        topicId := InsertEvicting(topic);
        return TopicInfo(topicId, Normal, true);
      }
      var r := Add(topic, topicId, Normal);
      if topicId in old(byId) {
        UsedId(regInfos, byTopic, byId, r);
      } else {
        AddKeeps(old(regInfos), old(byTopic), old(byId), r);
      }
      return TopicInfo(topicId, Normal, true);
    }

    /**
     * The topic id for a topic.  For a new topic the registry stays consistent exactly when an unused id
     * is found: the evict branch leaves the evicted topic in the topic map.
     */
    method MapTopic(topic: string) returns (info: TopicInfo)
      requires Valid() && minTopicId <= maxTopicId
      requires topic in byTopic || IsShortTopicName(topic) ||
               Pick(Ordered(byId.Keys, 0), minTopicId, maxTopicId) != 0 || exists v: nat :: Evictable(v)
      modifies `regInfos, `byTopic, `byId
      ensures topic in old(byTopic) ==>
                info == TopicInfo(old(byTopic)[topic].topicId, old(byTopic)[topic].idType, false)
      ensures topic !in old(byTopic) && IsShortTopicName(topic) ==>
                info == TopicInfo(ShortTopicNameToId(topic), ShortName, false)
      ensures topic in old(byTopic) || IsShortTopicName(topic) ==>
                regInfos == old(regInfos) && byTopic == old(byTopic) && byId == old(byId)
      ensures topic !in old(byTopic) && !IsShortTopicName(topic) ==>
                && info.idType == Normal && info.newInsertion
                && (Valid() <==> Allocates(old(Ordered(byId.Keys, 0)), minTopicId, maxTopicId))
      ensures topic !in old(byTopic) && !IsShortTopicName(topic) ==>
                var picked := old(Pick(Ordered(byId.Keys, 0), minTopicId, maxTopicId));
                && Inserted(topic, info.topicId, picked == 0)
                && if picked != 0 then info.topicId == picked
                   else old(Evictable(info.topicId)) && forall v: nat :: old(Evictable(v)) ==> info.topicId <= v
      ensures topic !in old(byTopic) && !IsShortTopicName(topic) && Valid() ==>
                && FreeIn(old(Ordered(byId.Keys, 0)), info.topicId, minTopicId, maxTopicId)
                && topic in byTopic && fresh(byTopic[topic]) && byTopic[topic].idType == Normal
                && byTopic == old(byTopic)[topic := byTopic[topic]]
                && byId == old(byId)[info.topicId := byTopic[topic]] && regInfos == old(regInfos) + [byTopic[topic]]
      ensures Valid() && info.idType != ShortName ==> info.topicId in byId && byId[info.topicId].topic == topic
    {
      hide Consistent, Ordered, Pick, Allocates;
      if topic in byTopic {
        ById(regInfos, byTopic, byId, topic);
        return TopicInfo(byTopic[topic].topicId, byTopic[topic].idType, false);
      }
      if IsShortTopicName(topic) {
        return TopicInfo(ShortTopicNameToId(topic), ShortName, false);
      }
      info := MapNewTopic(topic);
    }

    method DiscardRegistration(topicId: nat)
      requires Valid()
      modifies `regInfos, `byTopic, `byId
      ensures Valid()
      ensures byId == old(byId) - {topicId}
      ensures byTopic == if topicId in old(byId) then old(byTopic) - {old(byId)[topicId].topic} else old(byTopic)
    {
      if topicId !in byId {
        assert byId - {topicId} == byId;
        return;
      }
      var info := byId[topicId];
      EraseKeeps(regInfos, byTopic, byId, info);
      byTopic := byTopic - {info.topic};
      byId := byId - {topicId};
      regInfos := Erase(regInfos, info);
    }

    method MapTopicId(topicId: nat) returns (topic: string)
      requires Valid()
      ensures topicId in byId ==> topic in byTopic && byTopic[topic].topicId == topicId
      ensures topicId !in byId ==> topic == "" && forall t :: t in byTopic ==> byTopic[t].topicId != topicId
    {
      if topicId !in byId {
        return "";
      }
      return byId[topicId].topic;
    }

    /** The predefined registrations, in list order. */
    method Predefineds() returns (kept: seq<RegInfo>)
      requires NoDup(regInfos)
      ensures NoDup(kept) && (|kept| == |regInfos| ==> kept == regInfos)
      ensures forall r :: r in kept <==> r in regInfos && r.idType == Predefined
    {
      kept := [];
      var i := 0;
      while i < |regInfos|
        invariant i <= |regInfos| && |kept| <= i && (|kept| == i ==> kept == regInfos[..i])
        invariant NoDup(kept) && forall r :: r in kept <==> r in regInfos[..i] && r.idType == Predefined
      {
        if regInfos[i].idType == Predefined {
          kept := kept + [regInfos[i]];
        }
        i := i + 1;
      }
      assert regInfos[..i] == regInfos;
    }

    /** Both maps are filled again from the list. */
    method Reindex(ghost infos: seq<RegInfo>, ghost topics: map<string, RegInfo>, ghost ids: map<nat, RegInfo>)
      requires Consistent(infos, topics, ids) && NoDup(regInfos) && forall r :: r in regInfos ==> r in infos
      modifies `byTopic, `byId
      ensures Consistent(regInfos, byTopic, byId)
    {
      byTopic, byId := map[], map[];
      var i := 0;
      while i < |regInfos|
        invariant i <= |regInfos| && Consistent(regInfos[..i], byTopic, byId)
      {
        var r := regInfos[i];
        AddKeeps(regInfos[..i], byTopic, byId, r);
        byTopic := byTopic[r.topic := r];
        byId := byId[r.topicId := r];
        assert regInfos[..i + 1] == regInfos[..i] + [r];
        i := i + 1;
      }
      assert regInfos[..i] == regInfos;
    }

    /** Only predefined topics stay. */
    method ClearRegistrations()
      requires Valid()
      modifies `regInfos, `byTopic, `byId
      ensures Valid()
      ensures forall t :: t in byTopic <==> t in old(byTopic) && old(byTopic)[t].idType == Predefined
      ensures forall t :: t in byTopic ==> byTopic[t] == old(byTopic)[t]
    {
      var prevSize := |regInfos|;
      regInfos := Predefineds();
      if prevSize == |regInfos| {
        return;
      }
      Reindex(old(regInfos), old(byTopic), old(byId));
    }
  }

  /** A range of one id and two topics: the second topic evicts the first and leaves the registry inconsistent. */
  method EvictionBreaks() returns (registry: Registry, info: TopicInfo)
    ensures !registry.Valid() && info.topicId == 1 && info.newInsertion
  {
    hide Ordered, Pick, Used, Allocates;
    registry := new Registry();
    var ok := registry.SetTopicIdAllocationRange(1, 1);
    assert Within(1, 1, 1) && !Within(0, 1, 1) && !Within(2, 1, 1);
    assert registry.minTopicId == registry.maxTopicId == 1;
    ghost var none := Ordered(registry.byId.Keys, 0);
    OrderedIds(registry.regInfos, registry.byTopic, registry.byId);
    PickNone(1);
    info := registry.MapTopic("abc");
    ghost var ids := Ordered(registry.byId.Keys, 0);
    OrderedIds(registry.regInfos, registry.byTopic, registry.byId);
    assert 1 in ids;
    OneUsed(ids);
    assert registry.Evictable(1);
    info := registry.MapTopic("def");
  }

  /** A topic whose registration was discarded is known no more: it is inserted anew, here under the same id. */
  method DiscardedComesAnew(topic: string) returns (registry: Registry, known: TopicInfo, anew: TopicInfo)
    requires !IsShortTopicName(topic)
    ensures registry.Valid() && known == TopicInfo(1, Normal, false) && anew == TopicInfo(1, Normal, true)
  {
    hide Ordered, Pick, Allocates;
    registry := new Registry();
    OrderedIds(registry.regInfos, registry.byTopic, registry.byId);
    PickNone(registry.maxTopicId);
    known := registry.MapTopic(topic);
    known := registry.MapTopic(topic);
    registry.DiscardRegistration(1);
    OrderedIds(registry.regInfos, registry.byTopic, registry.byId);
    assert registry.byId == map[];
    anew := registry.MapTopic(topic);
  }

  lemma PickNone(max: nat)
    requires 1 <= max
    ensures Allocates([], 1, max) && Pick([], 1, max) == 1
  {
  }

  lemma OneUsed(ids: seq<nat>)
    requires Ids(ids) && 1 in ids
    ensures !Allocates(ids, 1, 1) && Pick(ids, 1, 1) == 0
  {
    assert Used(ids, 1, 1);
    FromOneExact(ids, 1);
    PickExact(ids, 1, 1);
  }
}
