/** The gateway's `PubRecv` session op: reception of publications from the broker (section 4.3 of MQTT 3.1.1)
    and the bounded queue it feeds. */
module PubRecv {
  import opened Protocol
  import opened PubSend

  /** A bound on the broker queue: the source pops from the front while `limit <= size`, so 0 would never end. */
  type Limit = n: nat | 1 <= n witness 1

  /** How many of the oldest publications make room for one more. */
  function Overflow(queue: seq<Pub>, limit: Limit): (k: nat)
    ensures k <= |queue|
  {
    if |queue| < limit then 0 else |queue| + 1 - limit
  }

  /** The queue after one more publication: the longest suffix that fits. */
  function Pushed(queue: seq<Pub>, pub: Pub, limit: Limit): (r: seq<Pub>)
    ensures var all := queue + [pub];
            |r| == (if |all| <= limit then |all| else limit) && r == all[|all| - |r|..]
  {
    queue[Overflow(queue, limit)..] + [pub]
  }

  /** A QoS 2 message received and not yet released. */
  datatype Held = Held(topic: string, data: seq<bv8>, dup: bool, retain: bool, packetId: nat, timestamp: nat)

  /** Messages of the broker with their time of arrival; the packet id of a QoS 0 PUBLISH is absent on the wire. */
  datatype FromBroker =
    | BrokerPublish(now: nat, qos: Qos, packetId: nat, dup: bool, retain: bool, topic: string, data: seq<bv8>)
    | BrokerPubrel(now: nat, packetId: nat)

  datatype ToBroker = PubackB(packetId: nat) | PubrecB(packetId: nat) | PubcompB(packetId: nat)

  /** What is put on the broker queue, without its serial number. */
  datatype Content = Content(topic: string, data: seq<bv8>, qos: Qos, retain: bool, dup: bool)

  function HeldFrom(m: FromBroker): Held
    requires m.BrokerPublish?
  {
    Held(m.topic, m.data, m.dup, m.retain, m.packetId, m.now)
  }

  /* Lists of held messages */

  function Keep(hs: seq<Held>, p: Held -> bool): seq<Held> {
    if hs == [] then [] else (if p(hs[0]) then [hs[0]] else []) + Keep(hs[1..], p)
  }

  lemma {:induction false} KeepIff(hs: seq<Held>, p: Held -> bool, h: Held)
    ensures h in Keep(hs, p) <==> h in hs && p(h)
  {
    if hs != [] {
      KeepIff(hs[1..], p, h);
    }
  }

  /** Entries that were not received too long ago. */
  function Recent(now: nat, period: nat): Held -> bool {
    (h: Held) => now <= h.timestamp + period
  }

  function Other(id: nat): Held -> bool {
    (h: Held) => h.packetId != id
  }

  function Find(hs: seq<Held>, id: nat): (r: Option<Held>)
    ensures r.Some? ==> r.value in hs && r.value.packetId == id
    ensures r.None? ==> forall h :: h in hs ==> h.packetId != id
  {
    if hs == [] then None else if hs[0].packetId == id then Some(hs[0]) else Find(hs[1..], id)
  }

  /** Replaces the first entry with the id of `h`. */
  function Refresh(hs: seq<Held>, h: Held): seq<Held> {
    if hs == [] then [] else if hs[0].packetId == h.packetId then [h] + hs[1..] else [hs[0]] + Refresh(hs[1..], h)
  }

  /** Removes the first entry with the id. */
  function Release(hs: seq<Held>, id: nat): seq<Held> {
    if hs == [] then [] else if hs[0].packetId == id then hs[1..] else [hs[0]] + Release(hs[1..], id)
  }

  ghost predicate Unique(hs: seq<Held>) {
    forall i, j :: 0 <= i < j < |hs| ==> hs[i].packetId != hs[j].packetId
  }

  /* The op */

  /** Held messages, and the outcome of one message: what goes on the queue and back to the broker. */
  datatype Outcome = Outcome(held: seq<Held>, queued: Option<Content>, reply: Option<ToBroker>)

  function OnBrokerPublish(held: seq<Held>, m: FromBroker, period: nat): Outcome
    requires m.BrokerPublish?
  {
    var recent := Keep(held, Recent(m.now, period));
    if m.qos != ExactlyOnce then
      Outcome(if m.qos == AtMostOnce then recent else Keep(recent, Other(m.packetId)),
              Some(Content(m.topic, m.data, m.qos, m.retain, m.dup)),
              if m.qos == AtLeastOnce then Some(PubackB(m.packetId)) else None)
    else if m.dup && Find(held, m.packetId).Some? then
      Outcome(Keep(Refresh(held, HeldFrom(m)), Recent(m.now, period)), None, Some(PubrecB(m.packetId)))
    else
      Outcome(Keep(recent, Other(m.packetId)) + [HeldFrom(m)], None, Some(PubrecB(m.packetId)))
  }

  function OnBrokerPubrel(held: seq<Held>, m: FromBroker): Outcome
    requires m.BrokerPubrel?
  {
    var h := Find(held, m.packetId);
    if h.None? then Outcome(held, None, Some(PubcompB(m.packetId)))
    else Outcome(Release(held, m.packetId),
                 Some(Content(h.value.topic, h.value.data, ExactlyOnce, h.value.retain, false)),
                 Some(PubcompB(m.packetId)))
  }

  function OnBroker(held: seq<Held>, m: FromBroker, period: nat): Outcome {
    if m.BrokerPublish? then OnBrokerPublish(held, m, period) else OnBrokerPubrel(held, m)
  }

  /** The messages held after a whole history. */
  function HeldAfter(ms: seq<FromBroker>, period: nat): seq<Held>
    decreases |ms|
  {
    if ms == [] then [] else OnBroker(HeldAfter(ms[..|ms| - 1], period), ms[|ms| - 1], period).held
  }

  /* List lemmas */

  lemma {:induction false} KeepUnique(hs: seq<Held>, p: Held -> bool)
    requires Unique(hs)
    ensures Unique(Keep(hs, p))
  {
    if hs != [] {
      KeepUnique(hs[1..], p);
      var rest := Keep(hs[1..], p);
      forall i | 0 <= i < |rest| ensures rest[i].packetId != hs[0].packetId {
        KeepIff(hs[1..], p, rest[i]);
        var j :| 0 <= j < |hs[1..]| && hs[1..][j] == rest[i];
        assert hs[j + 1] == rest[i];
      }
    }
  }

  lemma {:induction false} RefreshMember(hs: seq<Held>, h: Held, x: Held)
    requires Unique(hs) && Find(hs, h.packetId).Some?
    ensures x in Refresh(hs, h) <==> x == h || (x in hs && x.packetId != h.packetId)
  {
    var rest := hs[1..];
    assert hs == [hs[0]] + rest;
    if hs[0].packetId != h.packetId {
      RefreshMember(rest, h, x);
    } else {
      forall i | 0 <= i < |rest| ensures rest[i].packetId != h.packetId {
        assert rest[i] == hs[i + 1];
      }
    }
  }

  lemma {:induction false} RefreshUnique(hs: seq<Held>, h: Held)
    requires Unique(hs) && Find(hs, h.packetId).Some?
    ensures Unique(Refresh(hs, h))
  {
    var rest := hs[1..];
    assert forall i :: 0 <= i < |rest| ==> rest[i] == hs[i + 1];
    if hs[0].packetId != h.packetId {
      RefreshUnique(rest, h);
      forall x | x in Refresh(rest, h) ensures x.packetId != hs[0].packetId {
        RefreshMember(rest, h, x);
      }
    }
  }

  lemma RefreshFacts(hs: seq<Held>, h: Held)
    requires Unique(hs) && Find(hs, h.packetId).Some?
    ensures Unique(Refresh(hs, h))
    ensures forall x :: x in Refresh(hs, h) <==> x == h || (x in hs && x.packetId != h.packetId)
  {
    RefreshUnique(hs, h);
    forall x ensures x in Refresh(hs, h) <==> x == h || (x in hs && x.packetId != h.packetId) {
      RefreshMember(hs, h, x);
    }
  }

  lemma {:induction false} ReleaseFacts(hs: seq<Held>, id: nat)
    requires Unique(hs)
    ensures Unique(Release(hs, id))
    ensures forall x :: x in Release(hs, id) <==> x in hs && x.packetId != id
  {
    if hs != [] {
      var rest := hs[1..];
      assert hs == [hs[0]] + rest;
      forall i | 0 <= i < |rest| ensures rest[i] == hs[i + 1] {}
      ReleaseFacts(rest, id);
    }
  }

  /* Exactly-once receipt */

  /** Does the message speak about packet id `k`? */
  predicate Mentions(m: FromBroker, k: nat) {
    m.packetId == k && (m.BrokerPubrel? || m.qos != AtMostOnce)
  }

  predicate IsQos2(m: FromBroker) {
    m.BrokerPublish? && m.qos == ExactlyOnce
  }

  /** The QoS 2 PUBLISH number `i` is the last word on its packet id, and no PUBLISH came too long after it. */
  ghost predicate LastWord(ms: seq<FromBroker>, i: nat, period: nat) {
    && i < |ms| && IsQos2(ms[i])
    && (forall l :: i < l < |ms| ==> !Mentions(ms[l], ms[i].packetId))
    && (forall l :: i < l < |ms| && ms[l].BrokerPublish? ==> ms[l].now <= ms[i].now + period)
  }

  /** One message: what stays held and what becomes held. */
  lemma StepHeld(held: seq<Held>, m: FromBroker, period: nat, h: Held)
    requires Unique(held)
    ensures var held' := OnBroker(held, m, period).held;
            && Unique(held')
            && (h in held' <==>
                  || (IsQos2(m) && h == HeldFrom(m))
                  || (h in held && !Mentions(m, h.packetId) && (m.BrokerPublish? ==> Recent(m.now, period)(h))))
  {
    hide Unique, Keep, Refresh, Release;
    var recent, other := Recent(m.now, period), Other(m.packetId);
    if m.BrokerPubrel? {
      ReleaseFacts(held, m.packetId);
    } else if IsQos2(m) && m.dup && Find(held, m.packetId).Some? {
      RefreshFacts(held, HeldFrom(m));
      KeepUnique(Refresh(held, HeldFrom(m)), recent);
      KeepIff(Refresh(held, HeldFrom(m)), recent, h);
    } else {
      KeepUnique(held, recent);
      KeepIff(held, recent, h);
      KeepUnique(Keep(held, recent), other);
      KeepIff(Keep(held, recent), other, h);
      PushUnique(Keep(held, recent), HeldFrom(m));
    }
  }

  lemma PushUnique(hs: seq<Held>, h: Held)
    requires Unique(hs)
    ensures Unique(Keep(hs, Other(h.packetId)) + [h])
  {
    KeepUnique(hs, Other(h.packetId));
    var kept := Keep(hs, Other(h.packetId));
    forall i | 0 <= i < |kept| ensures kept[i].packetId != h.packetId {
      KeepIff(hs, Other(h.packetId), kept[i]);
    }
  }

  /** After any history: at most one message is held per packet id, and exactly those whose QoS 2 PUBLISH is the
      last word on its id, with the content of that PUBLISH. */
  lemma {:induction false} HeldIff(ms: seq<FromBroker>, period: nat, h: Held)
    ensures Unique(HeldAfter(ms, period))
    ensures h in HeldAfter(ms, period) <==> exists i: nat :: LastWord(ms, i, period) && h == HeldFrom(ms[i])
    decreases |ms|
  {
    hide Unique, OnBroker;
    if ms == [] {
      assert Unique([]) by { EmptyUnique(); }
    } else {
      var n := |ms| - 1;
      var front, m := ms[..n], ms[n];
      HeldIff(front, period, h);
      StepHeld(HeldAfter(front, period), m, period, h);
      if IsQos2(m) && h == HeldFrom(m) {
        assert LastWord(ms, n, period);
      } else if h in HeldAfter(ms, period) {
        var i: nat :| LastWord(front, i, period) && h == HeldFrom(front[i]);
        assert LastWord(ms, i, period);
      }
      forall i: nat | LastWord(ms, i, period) && h == HeldFrom(ms[i]) ensures h in HeldAfter(ms, period) {
        if i < n {
          assert LastWord(front, i, period) && front[i] == ms[i];
        }
      }
    }
  }

  lemma EmptyUnique()
    ensures Unique([])
  {
  }

  /** A PUBREL puts a message on the queue exactly when a QoS 2 PUBLISH of its id is the last word on that id, and
      what it puts there is the content of that PUBLISH. Every PUBREL is answered with a PUBCOMP. */
  lemma PubrelReleases(ms: seq<FromBroker>, period: nat, rel: FromBroker, i: nat)
    requires rel.BrokerPubrel?
    ensures var out := OnBroker(HeldAfter(ms, period), rel, period);
            && out.reply == Some(PubcompB(rel.packetId))
            && (out.queued.Some? ==> exists j: nat :: LastWord(ms, j, period) && ms[j].packetId == rel.packetId)
            && (LastWord(ms, i, period) && ms[i].packetId == rel.packetId ==>
                  out.queued == Some(Content(ms[i].topic, ms[i].data, ExactlyOnce, ms[i].retain, false)))
  {
    hide HeldAfter;
    var held := HeldAfter(ms, period);
    var found := Find(held, rel.packetId);
    if found.Some? {
      HeldIff(ms, period, found.value);
    }
    if LastWord(ms, i, period) && ms[i].packetId == rel.packetId {
      HeldIff(ms, period, HeldFrom(ms[i]));
      assert HeldFrom(ms[i]) in held;
      assert found.Some?;
      SameHeld(held, found.value, HeldFrom(ms[i]));
    }
  }

  lemma SameHeld(hs: seq<Held>, a: Held, b: Held)
    requires Unique(hs) && a in hs && b in hs && a.packetId == b.packetId
    ensures a == b
  {
    var i :| 0 <= i < |hs| && hs[i] == a;
    var j :| 0 <= j < |hs| && hs[j] == b;
    assert i == j;
  }

  /** Between two PUBRELs of one id that both release a message lies a QoS 2 PUBLISH with that id. */
  lemma PublishBetweenReleases(ms: seq<FromBroker>, period: nat, i: nat, j: nat)
    requires i < j < |ms| && ms[i].BrokerPubrel? && ms[j].BrokerPubrel? && ms[i].packetId == ms[j].packetId
    requires OnBroker(HeldAfter(ms[..j], period), ms[j], period).queued.Some?
    ensures exists l :: i < l < j && IsQos2(ms[l]) && ms[l].packetId == ms[i].packetId
  {
    hide HeldAfter, OnBroker;
    PubrelReleases(ms[..j], period, ms[j], 0);
    var l: nat :| LastWord(ms[..j], l, period) && ms[..j][l].packetId == ms[j].packetId;
    assert !(l < i) by {
      assert ms[..j][i] == ms[i];
    }
    assert ms[..j][l] == ms[l];
  }

  /* What a history owes to the client and to the broker */

  /** A PUBREL of packet id `k` after the history releases its message number `i`. */
  ghost predicate Releases(ms: seq<FromBroker>, i: nat, k: nat, period: nat) {
    LastWord(ms, i, period) && ms[i].packetId == k
  }

  /** The contents that belong on the queue after a history, oldest first: those of the QoS 0 and QoS 1 PUBLISHes as
      they come, and of each QoS 2 PUBLISH when a PUBREL releases it, then without the DUP flag. */
  ghost function Due(ms: seq<FromBroker>, period: nat): seq<Content>
    decreases |ms|
  {
    if ms == [] then []
    else
      var front, m := ms[..|ms| - 1], ms[|ms| - 1];
      Due(front, period) +
      if m.BrokerPublish? then if IsQos2(m) then [] else [Content(m.topic, m.data, m.qos, m.retain, m.dup)]
      else if exists i: nat :: Releases(front, i, m.packetId, period) then
        var i: nat :| Releases(front, i, m.packetId, period);
        [Content(front[i].topic, front[i].data, ExactlyOnce, front[i].retain, false)]
      else []
  }

  /** The replies the broker is owed after a history: one PUBACK for each QoS 1 PUBLISH, one PUBREC for each QoS 2
      PUBLISH and one PUBCOMP for each PUBREL. */
  function Owed(ms: seq<FromBroker>): seq<ToBroker> {
    if ms == [] then []
    else
      var m := ms[|ms| - 1];
      Owed(ms[..|ms| - 1]) +
      if m.BrokerPubrel? then [PubcompB(m.packetId)]
      else match m.qos
        case AtMostOnce => []
        case AtLeastOnce => [PubackB(m.packetId)]
        case ExactlyOnce => [PubrecB(m.packetId)]
  }

  function AsSeq<T>(o: Option<T>): seq<T> {
    if o.Some? then [o.value] else []
  }

  /** The op puts on the queue and sends to the broker exactly what the history owes. */
  lemma PaysWhatIsOwed(ms: seq<FromBroker>, m: FromBroker, period: nat)
    ensures var out := OnBroker(HeldAfter(ms, period), m, period);
            && Due(ms + [m], period) == Due(ms, period) + AsSeq(out.queued)
            && Owed(ms + [m]) == Owed(ms) + AsSeq(out.reply)
  {
    hide HeldAfter;
    assert (ms + [m])[..|ms|] == ms;
    if m.BrokerPubrel? {
      PubrelReleases(ms, period, m, 0);
      if OnBroker(HeldAfter(ms, period), m, period).queued.Some? {
        var j: nat :| LastWord(ms, j, period) && ms[j].packetId == m.packetId;
        assert Releases(ms, j, m.packetId, period);
      }
      if exists i: nat :: Releases(ms, i, m.packetId, period) {
        var i: nat :| Releases(ms, i, m.packetId, period) &&
                      Due(ms + [m], period) ==
                      Due(ms, period) + [Content(ms[i].topic, ms[i].data, ExactlyOnce, ms[i].retain, false)];
        PubrelReleases(ms, period, m, i);
      }
    }
  }

  /* The op as an object */

  class PubRecvOp {
    const retryPeriod: nat
    const sleepPubAccLimit: Limit
    var recvMsgs: seq<Held>
    var brokerPubs: seq<Pub>
    var toBroker: seq<ToBroker>
    var enqueued: nat

    // History: the messages of the broker, and the contents put on the queue
    ghost var history: seq<FromBroker>
    ghost var added: seq<Content>

    /** All that is owed was paid. */
    ghost predicate Valid()
      reads this
    {
      && recvMsgs == HeldAfter(history, retryPeriod)
      && added == Due(history, retryPeriod) && |added| == enqueued && toBroker == Owed(history)
    }

    constructor (retryPeriod: nat, limit: Limit)
      ensures Valid() && history == []
      ensures recvMsgs == [] && brokerPubs == [] && toBroker == [] && enqueued == 0
      ensures this.retryPeriod == retryPeriod && sleepPubAccLimit == limit
    {
      this.retryPeriod, sleepPubAccLimit := retryPeriod, limit;
      recvMsgs, brokerPubs, toBroker, enqueued := [], [], [], 0;
      history, added := [], [];
    }

    ghost function PubOf(c: Content): Pub
      reads this
    {
      Pub(enqueued, c.topic, c.data, c.qos, c.retain, c.dup)
    }

    method AddPubInfo(c: Content)
      modifies `brokerPubs, `enqueued, `added
      ensures enqueued == old(enqueued) + 1 && added == old(added) + [c]
      ensures brokerPubs == Pushed(old(brokerPubs), old(PubOf(c)), sleepPubAccLimit)
    {
      ghost var was, popped := brokerPubs, 0;
      while sleepPubAccLimit <= |brokerPubs|
        invariant popped <= Overflow(was, sleepPubAccLimit) && brokerPubs == was[popped..]
        invariant enqueued == old(enqueued) && added == old(added)
        decreases |brokerPubs|
      {
        brokerPubs := brokerPubs[1..];
        popped := popped + 1;
      }
      assert popped == Overflow(was, sleepPubAccLimit);
      var pub := Pub(enqueued, c.topic, c.data, c.qos, c.retain, c.dup);
      brokerPubs := brokerPubs + [pub];
      enqueued := enqueued + 1;
      added := added + [c];
    }

    /** The object has done to its state what `out` says. */
    twostate predicate Did(out: Outcome)
      reads this
    {
      && recvMsgs == out.held
      && toBroker == old(toBroker) + AsSeq(out.reply)
      && added == old(added) + AsSeq(out.queued)
      && (out.queued.None? ==> brokerPubs == old(brokerPubs) && enqueued == old(enqueued))
      && (out.queued.Some? ==>
            && enqueued == old(enqueued) + 1
            && brokerPubs == Pushed(old(brokerPubs), old(PubOf(out.queued.value)), sleepPubAccLimit))
    }

    /** The history takes the message in; what then has to be done is what `OnBroker` says. */
    ghost method Notes(m: FromBroker)
      modifies `history
      ensures history == old(history) + [m]
      ensures old(Valid()) ==>
                var out := OnBroker(recvMsgs, m, retryPeriod);
                && HeldAfter(history, retryPeriod) == out.held && Due(history, retryPeriod) == added + AsSeq(out.queued)
                && Owed(history) == toBroker + AsSeq(out.reply)
    {
      PaysWhatIsOwed(history, m, retryPeriod);
      history := history + [m];
      assert history[..|history| - 1] == old(history);
    }

    method HandlePublish(m: FromBroker)
      requires m.BrokerPublish?
      modifies this
      ensures Did(OnBroker(old(recvMsgs), m, retryPeriod))
      ensures history == old(history) + [m] && (old(Valid()) ==> Valid())
    {
      hide HeldAfter, Due, Owed;
      Notes(m);
      if m.qos == AtLeastOnce {
        toBroker := toBroker + [PubackB(m.packetId)];
      }

      if m.qos != ExactlyOnce {
        recvMsgs := Keep(recvMsgs, Recent(m.now, retryPeriod));
        if m.qos != AtMostOnce {
          recvMsgs := Keep(recvMsgs, Other(m.packetId));
        }
        AddPubInfo(Content(m.topic, m.data, m.qos, m.retain, m.dup));
        return;
      }

      if m.dup && Find(recvMsgs, m.packetId).Some? {
        recvMsgs := Refresh(recvMsgs, HeldFrom(m));
        recvMsgs := Keep(recvMsgs, Recent(m.now, retryPeriod));
        toBroker := toBroker + [PubrecB(m.packetId)];
        return;
      }

      recvMsgs := Keep(recvMsgs, Recent(m.now, retryPeriod));
      recvMsgs := Keep(recvMsgs, Other(m.packetId));
      recvMsgs := recvMsgs + [HeldFrom(m)];
      toBroker := toBroker + [PubrecB(m.packetId)];
    }

    method HandlePubrel(m: FromBroker)
      requires m.BrokerPubrel?
      modifies this
      ensures Did(OnBroker(old(recvMsgs), m, retryPeriod))
      ensures history == old(history) + [m] && (old(Valid()) ==> Valid())
    {
      hide HeldAfter, Due, Owed;
      Notes(m);
      var found := Find(recvMsgs, m.packetId);
      if found.Some? {
        AddPubInfo(Content(found.value.topic, found.value.data, ExactlyOnce, found.value.retain, false));
        recvMsgs := Release(recvMsgs, m.packetId);
      }
      toBroker := toBroker + [PubcompB(m.packetId)];
    }
  }
}
