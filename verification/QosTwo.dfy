/** QoS 2 delivery from the gateway to the client, end to end (section 6.10 of MQTT-SN v1.2): the gateway's
    `PubSend` op and the client's PUBLISH / PUBREL / REGISTER handlers joined by two lossy FIFO links.

    A link is the sender's output trace with a read position: receiving and losing a message both advance the
    position, so the unread part is the queue and any pattern of loss is possible. */
module QosTwo {
  import opened Protocol
  import opened PubSend
  import opened PubSendRuns

  datatype ToGateway =
    | RegackTo(topicId: nat, msgId: nat, rc: ReturnCode)
    | PubackTo(topicId: nat, msgId: nat, rc: ReturnCode)
    | PubrecTo(msgId: nat)
    | PubcompTo(msgId: nat)

  /** A message handed to the application, with the id it came under. */
  datatype Report = Report(msgId: nat, pub: Pub)

  /** The receiving side of the client: the id of the unfinished QoS 2 reception (0 for none) and the topic ids
      found in its two registration tables. */
  datatype Client = Client(last: nat, known: set<nat>)

  /** Everything the gateway's moves leave alone: the client, its output, and how far it has read. */
  datatype World = World(gRead: nat, cl: Client, csent: seq<ToGateway>, reports: seq<Report>)

  /** Does the client take a topic name from a REGISTER (format check)? Any answer, the same throughout. */
  type Accepts = string -> bool

  /* The client's handlers */

  predicate ValidTopicId(id: nat) {
    id != 0 && id != 0xffff
  }

  function OnRegister(accepts: Accepts, w: World, m: ToClient): World
    requires m.Register?
  {
    if !accepts(m.pub.topic) then w.(csent := w.csent + [RegackTo(m.topicId, m.msgId, NotSupported)])
    else if !ValidTopicId(m.topicId) then w.(csent := w.csent + [RegackTo(m.topicId, m.msgId, InvalidTopicId)])
    else w.(cl := w.cl.(known := w.cl.known + {m.topicId}),
            csent := w.csent + [RegackTo(m.topicId, m.msgId, Accepted)])
  }

  function OnPublish(w: World, m: ToClient): World
    requires m.Publish?
  {
    var told := w.reports + [Report(m.msgId, m.pub)];
    if m.kind == Normal && m.topicId !in w.cl.known then
      w.(csent := w.csent + [PubackTo(m.topicId, m.msgId, InvalidTopicId)])
    else match m.pub.qos
      case AtMostOnce => w.(reports := told)
      case AtLeastOnce =>
        w.(cl := w.cl.(last := 0), csent := w.csent + [PubackTo(m.topicId, m.msgId, Accepted)], reports := told)
      case ExactlyOnce =>
        if w.cl.last != 0 && w.cl.last == m.msgId then
          if m.dup then w.(csent := w.csent + [PubrecTo(m.msgId)]) else w
        else
          w.(cl := w.cl.(last := m.msgId), csent := w.csent + [PubrecTo(m.msgId)], reports := told)
  }

  function OnPubrel(w: World, m: ToClient): World
    requires m.Pubrel?
  {
    w.(cl := if w.cl.last == m.msgId then w.cl.(last := 0) else w.cl, csent := w.csent + [PubcompTo(m.msgId)])
  }

  function OnMessage(accepts: Accepts, w: World, m: ToClient): World {
    match m
    case Register(_, _, _) => OnRegister(accepts, w, m)
    case Publish(_, _, _, _, _) => OnPublish(w, m)
    case Pubrel(_) => OnPubrel(w, m)
    case Disconnect => w
    case Pingresp => w
  }

  /* The gateway's trace */

  /** Messages that carry a message id. */
  predicate Numbered(m: ToClient) {
    m.Register? || m.Pubrel? || (m.Publish? && m.pub.qos != AtMostOnce)
  }

  /** PUBLISHes that expect an answer. */
  predicate Tracked(m: ToClient) {
    m.Publish? && m.pub.qos != AtMostOnce
  }

  predicate IsPub(m: ToClient, k: nat) {
    Tracked(m) && m.msgId == k
  }

  /** `b` may come after `a`: ids never go down, and under one id come equal PUBLISHes and then PUBRELs. */
  predicate Follows(a: ToClient, b: ToClient)
    requires Numbered(a) && Numbered(b)
  {
    || a.msgId < b.msgId
    || (a.msgId == b.msgId &&
        (|| (a.Publish? && b.Publish? && a.pub == b.pub && a.topicId == b.topicId && a.kind == b.kind)
         || (!a.Register? && b.Pubrel?)))
  }

  predicate OfCurrent(s: Sender, m: ToClient)
    requires s.curr.Some? && Numbered(m)
  {
    match m
    case Publish(topicId, kind, _, _, pub) =>
      pub == s.curr.value && topicId == s.fl.info.topicId && kind == s.fl.info.kind && !NeedsRegister(s.fl)
    case Register(_, _, _) => NeedsRegister(s.fl)
    case Pubrel(_) => s.fl.acked
  }

  ghost predicate Trace(s: Sender) {
    && (forall i :: 0 <= i < |s.sent| && Numbered(s.sent[i]) ==> 1 <= s.sent[i].msgId <= s.nextMsgId)
    && (forall i :: 0 <= i < |s.sent| && Tracked(s.sent[i]) ==> Low16(s.sent[i].msgId) != 0)
    && (forall i :: 0 <= i < |s.sent| && s.sent[i].Publish? && !Numbered(s.sent[i]) ==> s.sent[i].msgId == 0)
    && (forall i, j :: 0 <= i < j < |s.sent| && Numbered(s.sent[i]) && Numbered(s.sent[j]) ==>
                         Follows(s.sent[i], s.sent[j]))
    && (s.curr.Some? ==>
          && s.fl.msgId == s.nextMsgId && 1 <= s.nextMsgId
          && forall i :: 0 <= i < |s.sent| && Numbered(s.sent[i]) && s.sent[i].msgId == s.fl.msgId ==>
                           OfCurrent(s, s.sent[i]))
  }

  /* The joint invariant */

  ghost predicate Reported(w: World, k: nat) {
    exists x :: 0 <= x < |w.reports| && w.reports[x].msgId == k && w.reports[x].pub.qos == ExactlyOnce
  }

  ghost predicate Rejected(w: World, k: nat) {
    exists y :: 0 <= y < |w.csent| && w.csent[y].PubackTo? && w.csent[y].msgId == k && w.csent[y].rc == InvalidTopicId
  }

  /** A PUBLISH with id `k` may still reach the client. */
  ghost predicate Open(s: Sender, w: World, k: nat) {
    || (exists j :: w.gRead <= j < |s.sent| && IsPub(s.sent[j], k))
    || (s.curr.Some? && s.fl.msgId == k && !s.fl.acked)
  }

  ghost predicate Resolved(w: World, m: ToClient)
    requires m.Publish?
  {
    m.kind == Normal ==> m.topicId in w.cl.known
  }

  /** Reports come from delivered messages, each id and each publication at most once. */
  ghost predicate ReportsTrue(s: Sender, w: World) {
    && (forall x :: 0 <= x < |w.reports| && w.reports[x].pub.qos == ExactlyOnce ==>
          Delivered(s.sent, w.gRead, w.reports[x]))
    && (forall x, y :: 0 <= x < y < |w.reports| && w.reports[x].pub.qos == w.reports[y].pub.qos == ExactlyOnce ==>
          w.reports[x].msgId != w.reports[y].msgId && w.reports[x].pub.serial != w.reports[y].pub.serial)
  }

  /** A PUBLISH with this id and content is among the messages read. */
  ghost predicate Delivered(sent: seq<ToClient>, read: nat, r: Report) {
    exists i :: 0 <= i < read <= |sent| && IsPub(sent[i], r.msgId) && sent[i].pub == r.pub
  }

  /** A PUBLISH of a reported id that may come again. */
  ghost predicate InUse(s: Sender, w: World, m: ToClient) {
    Tracked(m) && Reported(w, m.msgId) && Open(s, w, m.msgId)
  }

  /** While a reported id may come again, its topic id is known. */
  ghost predicate KnownWhileOpen(s: Sender, w: World) {
    forall i :: 0 <= i < |s.sent| && InUse(s, w, s.sent[i]) ==> Resolved(w, s.sent[i])
  }

  /** While a reported id may come again, the client remembers it. */
  ghost predicate Remembered(s: Sender, w: World) {
    && (forall k :: Reported(w, k) && Open(s, w, k) ==> w.cl.last == k)
    && (w.cl.last != 0 ==> Reported(w, w.cl.last))
  }

  /** A rejected id was never reported and never will be. */
  ghost predicate RejectionsFinal(s: Sender, w: World) {
    forall y :: 0 <= y < |w.csent| && Rejects(w.csent[y]) ==>
      && !Reported(w, w.csent[y].msgId)
      && (Open(s, w, w.csent[y].msgId) ==> w.csent[y].topicId !in w.cl.known)
      && Refused(s.sent, w.gRead, w.csent[y])
  }

  predicate Rejects(a: ToGateway) {
    a.PubackTo? && a.rc == InvalidTopicId && a.msgId != 0
  }

  predicate RejectedBy(m: ToClient, a: ToGateway)
    requires a.PubackTo?
  {
    IsPub(m, a.msgId) && m.kind == Normal && m.topicId == a.topicId
  }

  /** A PUBLISH with this id and topic id is among the messages read. */
  ghost predicate Refused(sent: seq<ToClient>, read: nat, a: ToGateway)
    requires a.PubackTo?
  {
    exists i :: 0 <= i < read <= |sent| && RejectedBy(sent[i], a)
  }

  /** A PUBLISH with this id was read and handed to the application. */
  ghost predicate HandedOver(s: Sender, w: World, k: nat) {
    exists x :: 0 <= x < |w.reports| && w.reports[x].msgId == k && Delivered(s.sent, w.gRead, w.reports[x])
  }

  /** What the client accepts with a PUBACK it has handed to the application. */
  ghost predicate AcceptsTrue(s: Sender, w: World) {
    forall y :: 0 <= y < |w.csent| && w.csent[y].PubackTo? && w.csent[y].rc == Accepted ==>
      HandedOver(s, w, w.csent[y].msgId)
  }

  /** Each acknowledgement answers what it says it answers. */
  ghost predicate AcksTrue(s: Sender, w: World) {
    && (forall y :: 0 <= y < |w.csent| && (w.csent[y].PubrecTo? || w.csent[y].PubcompTo?) ==>
          Reported(w, w.csent[y].msgId))
    && (forall y :: 0 <= y < |w.csent| && w.csent[y].RegackTo? ==> Asked(s.sent, w.csent[y].msgId))
    && (forall i :: 0 <= i < |s.sent| && s.sent[i].Pubrel? ==> Reported(w, s.sent[i].msgId))
    && (s.curr.Some? && s.fl.acked ==> Reported(w, s.fl.msgId))
  }

  ghost predicate Asked(sent: seq<ToClient>, k: nat) {
    exists i :: 0 <= i < |sent| && sent[i].Register? && sent[i].msgId == k
  }

  /** A publication goes out under a second id only after the first one was rejected. */
  ghost predicate SecondIds(s: Sender, w: World) {
    && (forall i, j | 0 <= i < j < |s.sent| && Tracked(s.sent[i]) && Tracked(s.sent[j]) &&
                      s.sent[i].pub.serial == s.sent[j].pub.serial && s.sent[i].msgId != s.sent[j].msgId ::
          Rejected(w, s.sent[i].msgId))
    && (s.curr.Some? ==>
          forall i | 0 <= i < |s.sent| && Tracked(s.sent[i]) && s.sent[i].pub.serial == s.curr.value.serial &&
                     s.sent[i].msgId != s.fl.msgId ::
            Rejected(w, s.sent[i].msgId))
  }

  /** A message with this id is among those read. */
  ghost predicate WasRead(sent: seq<ToClient>, read: nat, k: nat) {
    exists i :: 0 <= i < read <= |sent| && Numbered(sent[i]) && sent[i].msgId == k
  }

  /** The client answers what it has read, in the order of the ids; answers under id 0 answer no numbered message. */
  ghost predicate InOrder(s: Sender, w: World) {
    && (forall y :: 0 <= y < |w.csent| && w.csent[y].msgId != 0 ==> WasRead(s.sent, w.gRead, w.csent[y].msgId))
    && (forall y, z :: 0 <= y < z < |w.csent| && w.csent[z].msgId != 0 ==> w.csent[y].msgId <= w.csent[z].msgId)
  }

  ghost predicate SentStarted(s: Sender) {
    forall i :: 0 <= i < |s.sent| && Tracked(s.sent[i]) ==> Has(Started(s), s.sent[i].pub.serial)
  }

  ghost predicate Inv(s: Sender, w: World) {
    && w.gRead <= |s.sent|
    && Trace(s)
    && SentStarted(s)
    && ReportsTrue(s, w)
    && KnownWhileOpen(s, w)
    && Remembered(s, w)
    && RejectionsFinal(s, w)
    && AcksTrue(s, w)
    && SecondIds(s, w)
    && InOrder(s, w)
    && AcceptsTrue(s, w)
  }

  /* What a longer trace keeps, clause by clause */

  lemma DeliveredGrow(sent: seq<ToClient>, sent': seq<ToClient>, read: nat, r: Report)
    requires Delivered(sent, read, r) && sent <= sent'
    ensures Delivered(sent', read, r)
  {
    var i :| 0 <= i < read <= |sent| && IsPub(sent[i], r.msgId) && sent[i].pub == r.pub;
    assert sent'[i] == sent[i];
  }

  lemma ReportsGrow(s: Sender, t: Sender, w: World)
    requires ReportsTrue(s, w) && s.sent <= t.sent
    ensures ReportsTrue(t, w)
  {
    hide Delivered;
    forall x | 0 <= x < |w.reports| && w.reports[x].pub.qos == ExactlyOnce
      ensures Delivered(t.sent, w.gRead, w.reports[x])
    {
      DeliveredGrow(s.sent, t.sent, w.gRead, w.reports[x]);
    }
  }

  /** The ids the client has answered for can come again in `t` only if they can in `s`. */
  ghost predicate NoneReopened(s: Sender, t: Sender, w: World) {
    forall k :: (Reported(w, k) || Rejected(w, k)) && Open(t, w, k) ==> Open(s, w, k)
  }

  lemma RefusedGrow(sent: seq<ToClient>, sent': seq<ToClient>, read: nat, a: ToGateway)
    requires a.PubackTo? && Refused(sent, read, a) && sent <= sent'
    ensures Refused(sent', read, a)
  {
    var i :| 0 <= i < read <= |sent| && RejectedBy(sent[i], a);
    assert sent'[i] == sent[i];
  }

  lemma RejectionsGrow(s: Sender, t: Sender, w: World)
    requires RejectionsFinal(s, w) && s.sent <= t.sent && NoneReopened(s, t, w)
    ensures RejectionsFinal(t, w)
  {
    hide Open, Reported, Refused;
    forall y | 0 <= y < |w.csent| && Rejects(w.csent[y])
      ensures Refused(t.sent, w.gRead, w.csent[y]) && Rejected(w, w.csent[y].msgId)
    {
      RefusedGrow(s.sent, t.sent, w.gRead, w.csent[y]);
    }
  }

  lemma AskedGrow(sent: seq<ToClient>, sent': seq<ToClient>, k: nat)
    requires Asked(sent, k) && sent <= sent'
    ensures Asked(sent', k)
  {
    var i :| 0 <= i < |sent| && sent[i].Register? && sent[i].msgId == k;
    assert sent'[i] == sent[i];
  }

  /** New PUBRELs and a new acknowledgement are for reported ids. */
  ghost predicate RelsTrue(s: Sender, t: Sender, w: World) {
    && (forall i :: |s.sent| <= i < |t.sent| && t.sent[i].Pubrel? ==> Reported(w, t.sent[i].msgId))
    && (t.curr.Some? && t.fl.acked ==> Reported(w, t.fl.msgId))
  }

  lemma AcksGrow(s: Sender, t: Sender, w: World)
    requires AcksTrue(s, w) && s.sent <= t.sent && RelsTrue(s, t, w)
    ensures AcksTrue(t, w)
  {
    hide Reported, Asked;
    forall y | 0 <= y < |w.csent| && w.csent[y].RegackTo? ensures Asked(t.sent, w.csent[y].msgId) {
      AskedGrow(s.sent, t.sent, w.csent[y].msgId);
    }
    forall i | 0 <= i < |t.sent| && t.sent[i].Pubrel? ensures Reported(w, t.sent[i].msgId) {
      assert i < |s.sent| ==> t.sent[i] == s.sent[i];
    }
  }

  /** New PUBLISHes that may repeat a reported id have a topic id the client knows. */
  ghost predicate NewKnown(s: Sender, t: Sender, w: World) {
    forall i :: |s.sent| <= i < |t.sent| && Tracked(t.sent[i]) && Reported(w, t.sent[i].msgId) ==>
                  Resolved(w, t.sent[i])
  }

  lemma KnownGrow(s: Sender, t: Sender, w: World)
    requires KnownWhileOpen(s, w) && s.sent <= t.sent && NoneReopened(s, t, w) && NewKnown(s, t, w)
    ensures KnownWhileOpen(t, w)
  {
    hide Open, Reported, Rejected;
    forall i | 0 <= i < |t.sent| && InUse(t, w, t.sent[i]) ensures Resolved(w, t.sent[i])
    {
      assert i < |s.sent| ==> t.sent[i] == s.sent[i];
    }
  }

  lemma OrderGrow(s: Sender, t: Sender, w: World)
    requires InOrder(s, w) && s.sent <= t.sent
    ensures InOrder(t, w)
  {
    forall y | 0 <= y < |w.csent| && w.csent[y].msgId != 0 ensures WasRead(t.sent, w.gRead, w.csent[y].msgId) {
      var i :| 0 <= i < w.gRead <= |s.sent| && Numbered(s.sent[i]) && s.sent[i].msgId == w.csent[y].msgId;
      assert t.sent[i] == s.sent[i];
    }
  }

  /** What was handed over stays so when the gateway sends, the client reads or reports more. */
  lemma HandedOverStays(s: Sender, t: Sender, w: World, v: World, k: nat)
    requires HandedOver(s, w, k) && s.sent <= t.sent && w.gRead <= v.gRead <= |t.sent| && w.reports <= v.reports
    ensures HandedOver(t, v, k)
  {
    hide Delivered;
    var x :| 0 <= x < |w.reports| && w.reports[x].msgId == k && Delivered(s.sent, w.gRead, w.reports[x]);
    DeliveredGrow(s.sent, t.sent, w.gRead, w.reports[x]);
    DeliveredRead(t.sent, w.gRead, v.gRead, w.reports[x]);
    assert v.reports[x] == w.reports[x];
  }

  lemma AcceptsStay(s: Sender, t: Sender, w: World, v: World)
    requires AcceptsTrue(s, w) && s.sent <= t.sent && w.gRead <= v.gRead <= |t.sent| && w.reports <= v.reports
    requires v.csent == w.csent
    ensures AcceptsTrue(t, v)
  {
    hide HandedOver;
    forall y | 0 <= y < |w.csent| && w.csent[y].PubackTo? && w.csent[y].rc == Accepted
      ensures HandedOver(t, v, w.csent[y].msgId)
    {
      HandedOverStays(s, t, w, v, w.csent[y].msgId);
    }
  }

  /** What is left to show of a longer trace. */
  lemma GrowInv(s: Sender, t: Sender, w: World)
    requires Inv(s, w) && s.sent <= t.sent && Trace(t) && SentStarted(t) && SecondIds(t, w)
    requires NoneReopened(s, t, w) && RelsTrue(s, t, w) && NewKnown(s, t, w)
    ensures Inv(t, w)
  {
    hide Trace, SentStarted, SecondIds, ReportsTrue, RejectionsFinal, AcksTrue, KnownWhileOpen;
    hide Open, Reported, Rejected, RelsTrue, NewKnown;
    ReportsGrow(s, t, w);
    RejectionsGrow(s, t, w);
    AcksGrow(s, t, w);
    KnownGrow(s, t, w);
    OrderGrow(s, t, w);
    AcceptsStay(s, t, w, w);
  }

  lemma SecondIdsGrow(s: Sender, t: Sender, m: ToClient, w: World)
    requires SecondIds(s, w) && t.sent == s.sent + [m] && t.curr == s.curr && t.fl.msgId == s.fl.msgId
    requires Tracked(m) ==> s.curr.Some? && m.pub == s.curr.value && m.msgId == s.fl.msgId
    ensures SecondIds(t, w)
  {
    hide Rejected;
  }

  lemma TraceGrow(s: Sender, t: Sender, m: ToClient)
    requires Trace(s) && t.sent == s.sent + [m] && t.curr == s.curr && t.nextMsgId == s.nextMsgId
    requires t.fl.msgId == s.fl.msgId && t.fl.info == s.fl.info && t.fl.registered == s.fl.registered
    requires s.fl.acked ==> t.fl.acked
    requires m.Publish? && !Numbered(m) ==> m.msgId == 0
    requires Numbered(m) ==>
               && s.curr.Some? && m.msgId == s.fl.msgId && OfCurrent(t, m)
               && forall i :: 0 <= i < |s.sent| && Numbered(s.sent[i]) ==> Follows(s.sent[i], m)
    requires Tracked(m) ==> Low16(m.msgId) != 0
    ensures Trace(t)
  {
    hide Low16;
    assert forall i :: 0 <= i < |s.sent| ==> t.sent[i] == s.sent[i];
  }

  lemma StartedGrow(s: Sender, t: Sender, m: ToClient)
    requires SentStarted(s) && t.sent == s.sent + [m] && t.curr == s.curr && t.retired == s.retired
    requires Tracked(m) ==> s.curr.Some? && m.pub == s.curr.value
    ensures SentStarted(t)
  {
    if Tracked(m) {
      assert Started(t)[|Started(t)| - 1] == m.pub;
    }
  }

  lemma OpenGrow(s: Sender, t: Sender, m: ToClient, w: World, k: nat)
    requires t.sent == s.sent + [m] && w.gRead <= |s.sent| && t.curr == s.curr && t.fl.msgId == s.fl.msgId
    requires s.fl.acked ==> t.fl.acked
    requires Tracked(m) ==> s.curr.Some? && m.msgId == s.fl.msgId && !s.fl.acked
    ensures Open(t, w, k) ==> Open(s, w, k)
  {
  }

  /* Four kinds of gateway micro-step keep it */

  /** `t` differs from `s` at most in what the invariant does not mention. */
  ghost predicate Same(s: Sender, t: Sender) {
    && t.sent == s.sent && t.curr == s.curr && t.nextMsgId == s.nextMsgId && t.retired == s.retired
    && t.fl.msgId == s.fl.msgId && t.fl.acked == s.fl.acked && t.fl.info == s.fl.info
    && t.fl.registered == s.fl.registered
  }

  lemma SameTrace(s: Sender, t: Sender)
    requires Trace(s) && SentStarted(s) && Same(s, t)
    ensures Trace(t) && SentStarted(t)
  {
    assert Started(t) == Started(s);
    assert forall i :: 0 <= i < |t.sent| ==> t.sent[i] == s.sent[i];
  }

  lemma SameOpen(s: Sender, t: Sender, w: World, k: nat)
    requires t.sent == s.sent && t.curr == s.curr && t.fl.msgId == s.fl.msgId && t.fl.acked == s.fl.acked
    ensures Open(t, w, k) == Open(s, w, k)
  {
  }

  lemma SameSecondIds(s: Sender, t: Sender, w: World)
    requires SecondIds(s, w) && t.sent == s.sent && t.curr == s.curr && t.fl.msgId == s.fl.msgId
    ensures SecondIds(t, w)
  {
  }

  lemma NoRels(s: Sender, t: Sender, w: World)
    requires AcksTrue(s, w) && t.sent == s.sent
    requires t.curr.Some? && t.fl.acked ==> s.curr.Some? && s.fl.acked && t.fl.msgId == s.fl.msgId
    ensures RelsTrue(s, t, w) && NewKnown(s, t, w)
  {
  }

  lemma SameInv(s: Sender, t: Sender, w: World)
    requires Inv(s, w) && Same(s, t)
    ensures Inv(t, w)
  {
    hide Trace, SentStarted, SecondIds, ReportsTrue, RejectionsFinal, AcksTrue, KnownWhileOpen, Remembered;
    hide Open, Reported, Rejected, RelsTrue, NewKnown;
    SameTrace(s, t);
    SameSecondIds(s, t, w);
    forall k ensures Open(t, w, k) == Open(s, w, k) {
      SameOpen(s, t, w, k);
    }
    NoRels(s, t, w);
    GrowInv(s, t, w);
  }

  lemma RetireInv(s: Sender, w: World)
    requires Inv(s, w) && s.curr.Some?
    ensures Inv(Retire(s), w)
  {
    hide Trace, SentStarted, SecondIds, ReportsTrue, RejectionsFinal, AcksTrue, KnownWhileOpen, Remembered;
    hide Reported, Rejected, RelsTrue, NewKnown;
    var t := Retire(s);
    RetireTrace(s, w);
    NoRels(s, t, w);
    GrowInv(s, t, w);
  }

  lemma RetireTrace(s: Sender, w: World)
    requires s.curr.Some? && Trace(s) && SentStarted(s) && SecondIds(s, w)
    ensures Trace(Retire(s)) && SentStarted(Retire(s)) && SecondIds(Retire(s), w)
  {
    assert Started(Retire(s)) == Started(s);
  }

  /** A new id is neither reported nor rejected. */
  lemma NewIdOpen(s: Sender, t: Sender, w: World)
    requires Trace(s) && ReportsTrue(s, w) && RejectionsFinal(s, w)
    requires t.sent == s.sent && t.fl.msgId == t.nextMsgId == s.nextMsgId + 1
    ensures NoneReopened(s, t, w)
  {
    forall k | (Reported(w, k) || Rejected(w, k)) && Open(t, w, k) ensures Open(s, w, k) {
      if Reported(w, k) {
        var x :| 0 <= x < |w.reports| && w.reports[x].msgId == k && w.reports[x].pub.qos == ExactlyOnce;
        assert Delivered(s.sent, w.gRead, w.reports[x]);
      } else if k != 0 {
        var y :| 0 <= y < |w.csent| && w.csent[y].PubackTo? && w.csent[y].msgId == k && w.csent[y].rc == InvalidTopicId;
        assert Refused(s.sent, w.gRead, w.csent[y]);
      }
    }
  }

  lemma NewIdTrace(s: Sender, t: Sender)
    requires Trace(s) && SentStarted(s) && t.sent == s.sent && t.curr.Some?
    requires t.fl.msgId == t.nextMsgId == s.nextMsgId + 1
    requires forall n :: Has(Started(s), n) ==> Has(Started(t), n)
    ensures Trace(t) && SentStarted(t)
  {
    hide Has, Started;
    assert forall i :: 0 <= i < |t.sent| ==> t.sent[i] == s.sent[i];
  }

  lemma NewIdSecondIds(s: Sender, t: Sender, w: World)
    requires SecondIds(s, w) && t.sent == s.sent && t.curr.Some?
    requires forall i | 0 <= i < |s.sent| && Tracked(s.sent[i]) && s.sent[i].pub.serial == t.curr.value.serial ::
               Rejected(w, s.sent[i].msgId)
    ensures SecondIds(t, w)
  {
    hide Rejected;
  }

  /** The current publication, new or not, gets the next id and has sent nothing under it. */
  lemma NewIdInv(s: Sender, t: Sender, w: World)
    requires Inv(s, w) && t.sent == s.sent && t.curr.Some? && !t.fl.acked
    requires t.fl.msgId == t.nextMsgId == s.nextMsgId + 1
    requires forall n :: Has(Started(s), n) ==> Has(Started(t), n)
    requires forall i | 0 <= i < |s.sent| && Tracked(s.sent[i]) && s.sent[i].pub.serial == t.curr.value.serial ::
               Rejected(w, s.sent[i].msgId)
    ensures Inv(t, w)
  {
    hide Trace, SentStarted, SecondIds, ReportsTrue, RejectionsFinal, AcksTrue, KnownWhileOpen, Remembered;
    hide Open, Reported, Rejected, RelsTrue, NewKnown, NoneReopened, Has, Started;
    NewIdTrace(s, t);
    NewIdSecondIds(s, t, w);
    NewIdOpen(s, t, w);
    NoRels(s, t, w);
    GrowInv(s, t, w);
  }

  /** A PUBLISH of the current publication under a reported id: an equal one was accepted before. */
  lemma RepeatKnown(s: Sender, m: ToClient, w: World)
    requires ReportsTrue(s, w) && KnownWhileOpen(s, w)
    requires s.curr.Some? && !s.fl.acked && Tracked(m) && m.msgId == s.fl.msgId
    requires forall i :: 0 <= i < |s.sent| && Numbered(s.sent[i]) ==> Follows(s.sent[i], m)
    requires Reported(w, m.msgId)
    ensures Resolved(w, m)
  {
    var x :| 0 <= x < |w.reports| && w.reports[x].msgId == m.msgId && w.reports[x].pub.qos == ExactlyOnce;
    assert Delivered(s.sent, w.gRead, w.reports[x]);
    var i :| 0 <= i < w.gRead <= |s.sent| && IsPub(s.sent[i], m.msgId);
    assert Open(s, w, m.msgId) && Follows(s.sent[i], m);
  }

  /** The trace grows by one message of the current publication, or one that carries no id. */
  lemma EmitInv(s: Sender, t: Sender, m: ToClient, w: World)
    requires Inv(s, w) && t.sent == s.sent + [m] && t.curr == s.curr && t.nextMsgId == s.nextMsgId
    requires t.retired == s.retired && t.fl.msgId == s.fl.msgId && t.fl.info == s.fl.info
    requires t.fl.registered == s.fl.registered && (s.fl.acked ==> t.fl.acked)
    requires m.Publish? && !Numbered(m) ==> m.msgId == 0
    requires Numbered(m) ==>
               && s.curr.Some? && m.msgId == s.fl.msgId && OfCurrent(t, m)
               && forall i :: 0 <= i < |s.sent| && Numbered(s.sent[i]) ==> Follows(s.sent[i], m)
    requires Tracked(m) ==> m.pub == s.curr.value && !s.fl.acked && Low16(m.msgId) != 0
    requires s.curr.Some? && t.fl.acked ==> Reported(w, s.fl.msgId)
    ensures Inv(t, w)
  {
    hide Trace, SentStarted, SecondIds, ReportsTrue, RejectionsFinal, AcksTrue, KnownWhileOpen, Remembered;
    hide Open, Reported, Rejected, Low16;
    TraceGrow(s, t, m);
    StartedGrow(s, t, m);
    SecondIdsGrow(s, t, m, w);
    forall k ensures Open(t, w, k) ==> Open(s, w, k) {
      OpenGrow(s, t, m, w, k);
    }
    assert NewKnown(s, t, w) by {
      if Tracked(m) && Reported(w, m.msgId) {
        RepeatKnown(s, m, w);
      }
    }
    assert RelsTrue(s, t, w) by {
      RelOfAcked(s, t, m, w);
    }
    GrowInv(s, t, w);
  }

  lemma RelOfAcked(s: Sender, t: Sender, m: ToClient, w: World)
    requires t.sent == s.sent + [m] && t.curr == s.curr && t.fl.msgId == s.fl.msgId
    requires m.Pubrel? ==> s.curr.Some? && m.msgId == s.fl.msgId && t.fl.acked
    requires s.curr.Some? && t.fl.acked ==> Reported(w, s.fl.msgId)
    ensures RelsTrue(s, t, w)
  {
  }

  /** A PUBREC for the current publication, or the timer after one: PUBREL under the same id. */
  lemma EmitRelInv(s: Sender, t: Sender, w: World)
    requires Inv(s, w) && s.curr.Some? && Reported(w, s.fl.msgId)
    requires t.sent == s.sent + [Pubrel(s.fl.msgId)] && t.curr == s.curr && t.nextMsgId == s.nextMsgId
    requires t.retired == s.retired && t.fl.msgId == s.fl.msgId && t.fl.acked && t.fl.info == s.fl.info
    requires t.fl.registered == s.fl.registered
    ensures Inv(t, w)
  {
    hide Remembered, RejectionsFinal, AcksTrue, SecondIds, Open;
    ReportedIsPublished(s, w);
    EmitInv(s, t, Pubrel(s.fl.msgId), w);
  }

  /** If the current id was reported, then it was published, so the topic needs no registration. */
  lemma ReportedIsPublished(s: Sender, w: World)
    requires Trace(s) && ReportsTrue(s, w) && s.curr.Some? && Reported(w, s.fl.msgId)
    ensures !NeedsRegister(s.fl)
  {
    var x :| 0 <= x < |w.reports| && w.reports[x].msgId == s.fl.msgId && w.reports[x].pub.qos == ExactlyOnce;
    var i :| 0 <= i < w.gRead <= |s.sent| && IsPub(s.sent[i], w.reports[x].msgId);
    assert OfCurrent(s, s.sent[i]);
  }

  /* The gateway's moves, with the full numbering */

  lemma PublishFollows(s: Sender, i: nat)
    requires Trace(s) && s.curr.Some? && !s.fl.acked && !NeedsRegister(s.fl) && s.curr.value.qos != AtMostOnce
    requires i < |s.sent| && Numbered(s.sent[i])
    ensures Follows(s.sent[i], PublishMsg(s))
  {
    if s.sent[i].msgId == s.fl.msgId {
      assert OfCurrent(s, s.sent[i]);
    }
  }

  /** Taking another id for a publication that has sent nothing under the present one. */
  lemma TakeIdInv(cfg: Config, s: Sender, w: World)
    requires Inv(s, w) && !cfg.narrow && s.curr.Some? && !s.fl.acked
    requires forall i :: 0 <= i < |s.sent| && Tracked(s.sent[i]) ==> s.sent[i].msgId != s.fl.msgId
    ensures Inv(TakeId(cfg, s), w)
  {
    hide Trace, SentStarted, ReportsTrue, RejectionsFinal, AcksTrue, KnownWhileOpen, Remembered;
    hide Open, Reported, Rejected;
    var t := TakeId(cfg, s);
    assert Started(t) == Started(s);
    forall i | 0 <= i < |s.sent| && Tracked(s.sent[i]) && s.sent[i].pub.serial == t.curr.value.serial
      ensures Rejected(w, s.sent[i].msgId)
    {
    }
    NewIdInv(s, t, w);
  }

  /** A publication that needs a registration, or whose id stands for none, has sent no PUBLISH under it. */
  lemma NothingPublished(s: Sender)
    requires Trace(s) && s.curr.Some? && (NeedsRegister(s.fl) || Low16(s.fl.msgId) == 0)
    ensures forall i :: 0 <= i < |s.sent| && Tracked(s.sent[i]) ==> s.sent[i].msgId != s.fl.msgId
  {
    forall i | 0 <= i < |s.sent| && Tracked(s.sent[i]) ensures s.sent[i].msgId != s.fl.msgId {
      assert s.sent[i].msgId == s.fl.msgId ==> OfCurrent(s, s.sent[i]);
    }
  }

  lemma AskRegisterInv(cfg: Config, s: Sender, w: World)
    requires Inv(s, w) && !cfg.narrow && s.curr.Some? && !s.fl.acked && NeedsRegister(s.fl)
    ensures Inv(AskRegister(cfg, s), w)
  {
    hide SentStarted, ReportsTrue, RejectionsFinal, AcksTrue, KnownWhileOpen, Remembered, SecondIds, Open, Reported;
    var u := TakeId(cfg, s);
    NothingPublished(s);
    TakeIdInv(cfg, s, w);
    EmitInv(u, AskRegister(cfg, s), Register(u.fl.info.topicId, u.fl.msgId, u.curr.value), w);
  }

  lemma WithIdInv(cfg: Config, s: Sender, w: World)
    requires Inv(s, w) && !cfg.narrow && s.curr.Some? && !s.fl.acked
    ensures Inv(WithId(cfg, s), w) && Low16(WithId(cfg, s).fl.msgId) != 0
  {
    hide SentStarted, ReportsTrue, RejectionsFinal, AcksTrue, KnownWhileOpen, Remembered, SecondIds, Open, Reported;
    if Low16(s.fl.msgId) == 0 {
      NothingPublished(s);
      TakeIdInv(cfg, s, w);
    }
  }

  lemma SendOnceInv(cfg: Config, s: Sender, w: World)
    requires Inv(s, w) && !cfg.narrow && s.curr.Some? && !s.fl.acked && !NeedsRegister(s.fl)
    ensures Inv(SendOnce(cfg, s), w)
  {
    hide Inv, WithId, Low16;
    if s.curr.value.qos == AtMostOnce {
      EmitInv(s, Emit(s, PublishMsg(s)), PublishMsg(s), w);
      RetireInv(Emit(s, PublishMsg(s)), w);
    } else {
      WithIdFrame(cfg, s);
      WithIdInv(cfg, s, w);
      var u := WithId(cfg, s);
      InvTrace(u, w);
      forall i | 0 <= i < |u.sent| && Numbered(u.sent[i]) ensures Follows(u.sent[i], PublishMsg(u)) {
        PublishFollows(u, i);
      }
      EmitInv(u, SendOnce(cfg, s), PublishMsg(u), w);
    }
  }

  lemma AttemptInv(cfg: Config, s: Sender, w: World)
    requires Inv(s, w) && s.curr.Some? && !s.fl.acked && !cfg.narrow
    ensures Inv(Attempt(cfg, s), w)
  {
    hide Inv, SendOnce, AskRegister;
    var tried := s.(fl := s.fl.(attempt := s.fl.attempt + 1));
    SameInv(s, tried, w);
    if cfg.retryCount <= s.fl.attempt {
      RetireInv(s, w);
    } else if !NeedsRegister(s.fl) {
      SendOnceInv(cfg, tried, w);
    } else if cfg.retryCount <= s.fl.registerCount {
      RetireInv(tried, w);
    } else {
      AskRegisterInv(cfg, tried, w);
    }
  }

  lemma InvTrace(s: Sender, w: World)
    requires Inv(s, w)
    ensures Trace(s)
  {
  }

  lemma PopInv(cfg: Config, s: Sender, w: World)
    requires Inv(s, w) && s.curr.None? && s.ses.queue != [] && Ordered(InLine(s))
    requires !cfg.narrow
    ensures Inv(Load(cfg, Pop(s)), w)
  {
    hide RejectionsFinal, AcksTrue, Open, ReportsTrue, Remembered, Rejected, SecondIds, Trace;
    var t := Load(cfg, Pop(s));
    forall n | Has(Started(s), n) ensures Has(Started(t), n) && n != t.curr.value.serial {
      var i :| 0 <= i < |Started(s)| && Started(s)[i].serial == n;
      assert Started(t)[i].serial == n;
      assert InLine(s)[i].serial == n && InLine(s)[|Started(s)|] == t.curr.value;
    }
    NewIdInv(s, t, w);
  }

  lemma {:induction false} DrainInv(cfg: Config, s: Sender, w: World)
    requires Inv(s, w) && Good(cfg, s) && !cfg.narrow
    ensures Inv(Drain(cfg, s), w)
    decreases |s.ses.queue|
  {
    hide Inv, Attempt;
    if s.ses.queue != [] && s.curr.None? {
      var u := Load(cfg, Pop(s));
      PopInv(cfg, s, w);
      AttemptInv(cfg, u, w);
      PopFrugal(cfg, s, 0);
      AttemptFrugal(cfg, u, 0);
      StartFrame(cfg, s);
      DrainInv(cfg, Start(cfg, s), w);
    }
  }

  lemma TailInv(s: Sender, w: World)
    requires Inv(s, w)
    ensures Inv(Tail(s), w)
  {
    hide Trace, SentStarted, ReportsTrue, Remembered, RejectionsFinal, SecondIds, Reported;
    if Tail(s).sent == s.sent {
      SameInv(s, Tail(s), w);
    } else {
      EmitInv(s, Tail(s), if s.ses.pendingDisconnect then Disconnect else Pingresp, w);
    }
  }

  lemma CheckInv(cfg: Config, s: Sender, w: World)
    requires Inv(s, w) && Good(cfg, s) && !cfg.narrow
    ensures Inv(Check(cfg, s), w)
  {
    hide Inv, Drain, Good, MayStart;
    if MayStart(s) {
      var u := s.(armed := false);
      SameInv(s, u, w);
      Disarm(cfg, s, 0);
      DrainInv(cfg, u, w);
      TailInv(Drain(cfg, u), w);
    }
  }

  lemma RetireCheckInv(cfg: Config, s: Sender, w: World)
    requires Inv(s, w) && Good(cfg, s) && s.curr.Some?
    requires !cfg.narrow
    ensures Inv(Check(cfg, Retire(s.(armed := false))), w)
  {
    hide Inv, Check, Good;
    var u := s.(armed := false);
    SameInv(s, u, w);
    Disarm(cfg, s, 0);
    RetireInv(u, w);
    RetireFrugal(cfg, u, 0);
    CheckInv(cfg, Retire(u), w);
  }

  lemma DoSendInv(cfg: Config, s: Sender, w: World)
    requires Inv(s, w) && Good(cfg, s) && s.curr.Some? && !s.fl.acked && !cfg.narrow
    ensures Inv(DoSend(cfg, s), w)
  {
    hide Inv, Check, Good, Attempt;
    AttemptInv(cfg, s, w);
    AttemptFrugal(cfg, s, 0);
    if Attempt(cfg, s).curr.None? {
      CheckInv(cfg, Attempt(cfg, s), w);
    }
  }

  /* Events at the gateway */

  lemma TickInv(cfg: Config, s: Sender, w: World)
    requires Inv(s, w) && Good(cfg, s) && !cfg.narrow
    ensures Inv(OnTick(cfg, s), w)
  {
    hide Trace, SentStarted, ReportsTrue, Remembered, RejectionsFinal, SecondIds, Reported, Check, DoSend, Good;
    var u := s.(armed := false);
    SameInv(s, u, w);
    Disarm(cfg, s, 0);
    if u.curr.None? {
      CheckInv(cfg, u, w);
    } else if !u.fl.acked {
      DoSendInv(cfg, u, w);
    } else if cfg.retryCount <= u.fl.attempt {
      RetireCheckInv(cfg, s, w);
    } else {
      EmitRelInv(u, OnTick(cfg, s), w);
    }
  }

  /** The answer read at position `y` of the client's output. */
  lemma AckInv(cfg: Config, s: Sender, w: World, y: nat)
    requires Inv(s, w) && Good(cfg, s) && y < |w.csent| && !cfg.narrow
    ensures Inv(OnAck(cfg, s, w.csent[y]), w)
  {
    hide Inv, OnRegack, OnPuback, OnPubrec, OnPubcomp, Good;
    match w.csent[y] {
      case RegackTo(_, _, _) => RegackInv(cfg, s, w, y);
      case PubackTo(_, _, _) => PubackInv(cfg, s, w, y);
      case PubrecTo(_) => PubrecInv(s, w, y);
      case PubcompTo(_) => PubcompInv(cfg, s, w, y);
    }
  }

  function OnAck(cfg: Config, s: Sender, a: ToGateway): Sender {
    match a
    case RegackTo(topicId, msgId, rc) => OnRegack(cfg, s, topicId, msgId, rc)
    case PubackTo(topicId, msgId, rc) => OnPuback(cfg, s, topicId, msgId, rc)
    case PubrecTo(msgId) => OnPubrec(s, msgId)
    case PubcompTo(msgId) => OnPubcomp(cfg, s, msgId)
  }

  lemma PubrecInv(s: Sender, w: World, y: nat)
    requires Inv(s, w) && y < |w.csent| && w.csent[y].PubrecTo?
    ensures Inv(OnPubrec(s, w.csent[y].msgId), w)
  {
    hide Trace, SentStarted, ReportsTrue, Remembered, RejectionsFinal, SecondIds, Reported;
    var t := OnPubrec(s, w.csent[y].msgId);
    if t != s {
      EmitRelInv(s, t, w);
    }
  }

  lemma PubcompInv(cfg: Config, s: Sender, w: World, y: nat)
    requires Inv(s, w) && Good(cfg, s) && y < |w.csent| && w.csent[y].PubcompTo?
    requires !cfg.narrow
    ensures Inv(OnPubcomp(cfg, s, w.csent[y].msgId), w)
  {
    hide Inv, Check, Good;
    if s.curr.Some? && w.csent[y].msgId == s.fl.msgId {
      RetireCheckInv(cfg, s, w);
    }
  }

  /** The publication is loaded again under a new id: only a rejection of its current id gets here. */
  lemma ReloadInv(cfg: Config, s: Sender, w: World, y: nat)
    requires Inv(s, w) && s.curr.Some? && y < |w.csent| && w.csent[y].PubackTo?
    requires w.csent[y].msgId == s.fl.msgId && w.csent[y].rc == InvalidTopicId && !cfg.narrow
    ensures Inv(Load(cfg, s), w)
  {
    hide Trace, ReportsTrue, Remembered, RejectionsFinal, AcksTrue, Open;
    var t := Load(cfg, s);
    assert Started(t) == Started(s);
    assert Rejected(w, s.fl.msgId);
    NewIdInv(s, t, w);
  }

  lemma PubackInv(cfg: Config, s: Sender, w: World, y: nat)
    requires Inv(s, w) && Good(cfg, s) && y < |w.csent| && w.csent[y].PubackTo?
    requires !cfg.narrow
    ensures Inv(OnAck(cfg, s, w.csent[y]), w)
  {
    hide Inv, Check, Good, DoSend, Load;
    var a := w.csent[y];
    var u := s.(armed := false);
    if s.curr.None? || a.topicId != s.fl.info.topicId || a.msgId != s.fl.msgId ||
       (a.rc == Accepted && s.curr.value.qos == ExactlyOnce) {
    } else if a.rc == InvalidTopicId {
      SameInv(s, u, w);
      LoadFrame(cfg, u);
      ReloadInv(cfg, u, w, y);
      Reset(cfg, s, Load(cfg, u));
      DoSendInv(cfg, Load(cfg, u), w);
    } else {
      RetireCheckInv(cfg, s, w);
    }
  }

  lemma RegackInv(cfg: Config, s: Sender, w: World, y: nat)
    requires Inv(s, w) && Good(cfg, s) && y < |w.csent| && w.csent[y].RegackTo?
    requires !cfg.narrow
    ensures Inv(OnAck(cfg, s, w.csent[y]), w)
  {
    hide Inv, Check, Good, DoSend;
    var a := w.csent[y];
    if s.curr.None? || a.topicId != s.fl.info.topicId || a.msgId != s.fl.msgId {
    } else if a.rc != Accepted {
      RetireCheckInv(cfg, s, w);
    } else {
      var u := Registered(cfg, s);
      RegisteredInv(s, u, w, y);
      Reset(cfg, s, u);
      DoSendInv(cfg, u, w);
    }
  }

  /** A REGACK for the current id answers a REGISTER, so nothing was published under that id. */
  lemma RegisteredInv(s: Sender, u: Sender, w: World, y: nat)
    requires Inv(s, w) && s.curr.Some? && y < |w.csent| && w.csent[y].RegackTo? && w.csent[y].msgId == s.fl.msgId
    requires u.sent == s.sent && u.curr == s.curr && u.retired == s.retired && u.fl.acked == s.fl.acked
    requires u.fl.msgId == u.nextMsgId == s.nextMsgId + 1
    ensures Inv(u, w) && !u.fl.acked
  {
    hide Remembered, RejectionsFinal, Open;
    assert Started(u) == Started(s);
    var i :| 0 <= i < |s.sent| && s.sent[i].Register? && s.sent[i].msgId == s.fl.msgId;
    assert OfCurrent(s, s.sent[i]);
    if s.fl.acked {
      ReportedIsPublished(s, w);
    }
    NewIdInv(s, u, w);
  }

  /* Messages read by the client */

  function Skip(w: World): World {
    w.(gRead := w.gRead + 1)
  }

  lemma OpenRead(s: Sender, w: World, v: World, k: nat)
    requires w.gRead <= v.gRead
    ensures Open(s, v, k) ==> Open(s, w, k)
  {
  }

  lemma SameReported(w: World, v: World, k: nat)
    requires v.reports == w.reports
    ensures Reported(v, k) == Reported(w, k)
  {
  }

  lemma SameRejected(w: World, v: World, k: nat)
    requires v.csent == w.csent
    ensures Rejected(v, k) == Rejected(w, k)
  {
  }

  /** In `v` the client has read further, and no id is reported or can come again that was or could not in `w`. */
  ghost predicate Quiet(s: Sender, w: World, v: World) {
    && w.gRead <= v.gRead <= |s.sent| && v.csent == w.csent
    && (forall k :: Open(s, v, k) ==> Open(s, w, k))
    && (forall k :: Reported(v, k) == Reported(w, k)) && (forall k :: Rejected(v, k) == Rejected(w, k))
  }

  lemma ReadsOn(s: Sender, w: World, v: World)
    requires w.gRead <= v.gRead <= |s.sent| && v.csent == w.csent && v.reports == w.reports
    ensures Quiet(s, w, v)
  {
    hide Open, Reported, Rejected;
    forall k ensures Open(s, v, k) ==> Open(s, w, k) {
      OpenRead(s, w, v, k);
    }
    forall k ensures Reported(v, k) == Reported(w, k) {
      SameReported(w, v, k);
    }
    forall k ensures Rejected(v, k) == Rejected(w, k) {
      SameRejected(w, v, k);
    }
  }

  lemma DeliveredRead(sent: seq<ToClient>, read: nat, read': nat, r: Report)
    requires Delivered(sent, read, r) && read <= read' <= |sent|
    ensures Delivered(sent, read', r)
  {
  }

  lemma RefusedRead(sent: seq<ToClient>, read: nat, read': nat, a: ToGateway)
    requires a.PubackTo? && Refused(sent, read, a) && read <= read' <= |sent|
    ensures Refused(sent, read', a)
  {
  }

  lemma ReportsRead(s: Sender, w: World, v: World)
    requires ReportsTrue(s, w) && v.reports == w.reports && w.gRead <= v.gRead <= |s.sent|
    ensures ReportsTrue(s, v)
  {
    hide Delivered;
    forall x | 0 <= x < |v.reports| && v.reports[x].pub.qos == ExactlyOnce
      ensures Delivered(s.sent, v.gRead, v.reports[x])
    {
      DeliveredRead(s.sent, w.gRead, v.gRead, w.reports[x]);
    }
  }

  lemma RejectionsRead(s: Sender, w: World, v: World)
    requires RejectionsFinal(s, w) && Quiet(s, w, v)
    requires forall y :: 0 <= y < |w.csent| && Rejects(w.csent[y]) && Open(s, v, w.csent[y].msgId) ==>
               (w.csent[y].topicId in v.cl.known ==> w.csent[y].topicId in w.cl.known)
    ensures RejectionsFinal(s, v)
  {
    hide Open, Reported, Refused, Rejected;
    forall y | 0 <= y < |v.csent| && Rejects(v.csent[y]) ensures Refused(s.sent, v.gRead, v.csent[y]) {
      RefusedRead(s.sent, w.gRead, v.gRead, w.csent[y]);
    }
  }

  lemma AcksRead(s: Sender, w: World, v: World)
    requires AcksTrue(s, w) && SecondIds(s, w) && Quiet(s, w, v)
    ensures AcksTrue(s, v) && SecondIds(s, v)
  {
    hide Open, Reported, Rejected, Asked;
  }

  lemma OrderRead(s: Sender, w: World, v: World)
    requires InOrder(s, w) && v.csent == w.csent && w.gRead <= v.gRead <= |s.sent|
    ensures InOrder(s, v)
  {
    forall y | 0 <= y < |w.csent| && w.csent[y].msgId != 0 ensures WasRead(s.sent, v.gRead, w.csent[y].msgId) {
      assert WasRead(s.sent, w.gRead, w.csent[y].msgId);
    }
  }

  /** What is left to show when the client reads on or changes what it remembers. */
  lemma ReadInv(s: Sender, w: World, v: World)
    requires Inv(s, w) && Quiet(s, w, v) && v.reports == w.reports
    requires Remembered(s, v) && KnownWhileOpen(s, v)
    requires forall y :: 0 <= y < |w.csent| && Rejects(w.csent[y]) && Open(s, v, w.csent[y].msgId) ==>
               (w.csent[y].topicId in v.cl.known ==> w.csent[y].topicId in w.cl.known)
    ensures Inv(s, v)
  {
    hide Trace, SentStarted, SecondIds, ReportsTrue, RejectionsFinal, AcksTrue, KnownWhileOpen, Remembered;
    hide Open, Reported, Rejected;
    ReportsRead(s, w, v);
    RejectionsRead(s, w, v);
    AcksRead(s, w, v);
    OrderRead(s, w, v);
    AcceptsStay(s, s, w, v);
  }

  lemma LoseInv(s: Sender, w: World)
    requires Inv(s, w) && w.gRead < |s.sent|
    ensures Inv(s, Skip(w))
  {
    hide Trace, SentStarted, SecondIds, ReportsTrue, RejectionsFinal, AcksTrue, Open, Reported, Rejected;
    ReadsOn(s, w, Skip(w));
    ReadInv(s, w, Skip(w));
  }

  /** Reading one message: a reported id that may come again after it is the id of that very message. */
  lemma OnlyItself(s: Sender, w: World, k: nat)
    requires Trace(s) && ReportsTrue(s, w) && w.gRead < |s.sent| && Numbered(s.sent[w.gRead])
    requires Reported(w, k) && Open(s, Skip(w), k)
    ensures IsPub(s.sent[w.gRead], k) && s.sent[w.gRead].pub.qos == ExactlyOnce
  {
    var x :| 0 <= x < |w.reports| && w.reports[x].msgId == k && w.reports[x].pub.qos == ExactlyOnce;
    assert Delivered(s.sent, w.gRead, w.reports[x]);
    var i :| 0 <= i < w.gRead <= |s.sent| && IsPub(s.sent[i], k) && s.sent[i].pub == w.reports[x].pub;
    assert Follows(s.sent[i], s.sent[w.gRead]);
    if j :| w.gRead < j < |s.sent| && IsPub(s.sent[j], k) {
      assert Follows(s.sent[w.gRead], s.sent[j]);
    }
  }

  /** The same for a rejected id. */
  lemma OnlyItselfRejected(s: Sender, w: World, y: nat)
    requires Trace(s) && RejectionsFinal(s, w) && w.gRead < |s.sent| && Numbered(s.sent[w.gRead])
    requires y < |w.csent| && Rejects(w.csent[y]) && Open(s, Skip(w), w.csent[y].msgId)
    ensures IsPub(s.sent[w.gRead], w.csent[y].msgId)
  {
    var k := w.csent[y].msgId;
    assert Refused(s.sent, w.gRead, w.csent[y]);
    var i :| 0 <= i < w.gRead <= |s.sent| && RejectedBy(s.sent[i], w.csent[y]);
    assert Follows(s.sent[i], s.sent[w.gRead]);
    if j :| w.gRead < j < |s.sent| && IsPub(s.sent[j], k) {
      assert Follows(s.sent[w.gRead], s.sent[j]);
    }
  }

  /** A message about to be accepted was not rejected under its id before. */
  lemma AcceptedNotRejected(s: Sender, w: World)
    requires Trace(s) && RejectionsFinal(s, w) && w.gRead < |s.sent| && Tracked(s.sent[w.gRead])
    requires Resolved(w, s.sent[w.gRead])
    ensures !Rejected(w, s.sent[w.gRead].msgId)
  {
    var m := s.sent[w.gRead];
    assert IsPub(s.sent[w.gRead], m.msgId);
    assert Open(s, w, m.msgId);
    forall y | 0 <= y < |w.csent| && w.csent[y].PubackTo? && w.csent[y].rc == InvalidTopicId
      ensures w.csent[y].msgId != m.msgId
    {
      if w.csent[y].msgId != 0 {
        assert Refused(s.sent, w.gRead, w.csent[y]);
        var i :| 0 <= i < w.gRead <= |s.sent| && RejectedBy(s.sent[i], w.csent[y]);
        assert Follows(s.sent[i], m);
      }
    }
  }

  /** A QoS 2 message about to be reported has not been reported, under this or any other id. */
  lemma FreshReport(s: Sender, w: World, x: nat)
    requires Inv(s, w) && w.gRead < |s.sent|
    requires s.sent[w.gRead].Publish? && s.sent[w.gRead].pub.qos == ExactlyOnce && Resolved(w, s.sent[w.gRead])
    requires w.cl.last != s.sent[w.gRead].msgId && x < |w.reports| && w.reports[x].pub.qos == ExactlyOnce
    ensures w.reports[x].msgId != s.sent[w.gRead].msgId && w.reports[x].pub.serial != s.sent[w.gRead].pub.serial
  {
    hide SentStarted, AcksTrue, KnownWhileOpen, Resolved, Rejected;
    var m, k := s.sent[w.gRead], w.reports[x].msgId;
    assert IsPub(s.sent[w.gRead], m.msgId);
    assert Open(s, w, m.msgId) && Reported(w, k);
    assert Delivered(s.sent, w.gRead, w.reports[x]);
    var i :| 0 <= i < w.gRead <= |s.sent| && IsPub(s.sent[i], k) && s.sent[i].pub == w.reports[x].pub;
    ReportedNotRejected(s, w, k);
  }

  lemma ReportedNotRejected(s: Sender, w: World, k: nat)
    requires Trace(s) && ReportsTrue(s, w) && RejectionsFinal(s, w) && Reported(w, k)
    ensures 1 <= k && !Rejected(w, k)
  {
    hide Open;
    var x :| 0 <= x < |w.reports| && w.reports[x].msgId == k && w.reports[x].pub.qos == ExactlyOnce;
    assert Delivered(s.sent, w.gRead, w.reports[x]);
  }

  /** What the client has sent only grows; more answers keep the clauses that mention answers. */
  ghost predicate AnswerTrue(s: Sender, w: World, a: ToGateway) {
    && (a.msgId != 0 ==>
          0 < w.gRead <= |s.sent| && Numbered(s.sent[w.gRead - 1]) && s.sent[w.gRead - 1].msgId == a.msgId)
    && (a.PubrecTo? || a.PubcompTo? ==> Reported(w, a.msgId)) && (a.RegackTo? ==> Asked(s.sent, a.msgId))
    && (a.PubackTo? && a.rc == Accepted ==> HandedOver(s, w, a.msgId))
    && (Rejects(a) ==>
          && !Reported(w, a.msgId) && (Open(s, w, a.msgId) ==> a.topicId !in w.cl.known)
          && Refused(s.sent, w.gRead, a))
  }

  lemma AnswerInv(s: Sender, w: World, a: ToGateway)
    requires Inv(s, w) && AnswerTrue(s, w, a)
    ensures Inv(s, w.(csent := w.csent + [a]))
  {
    hide Trace, SentStarted, ReportsTrue, Open, Reported, Rejected, Refused, Asked;
    var v := w.(csent := w.csent + [a]);
    forall k ensures Reported(v, k) == Reported(w, k) && Open(s, v, k) == Open(s, w, k) {
      SameReported(w, v, k);
      OpenSame(s, w, v, k);
    }
    forall k | Rejected(w, k) ensures Rejected(v, k) {
      StillRejected(w, v, k);
    }
    ReportsRead(s, w, v);
    AnswerRejections(s, w, a);
    AnswerAcks(s, w, a);
    AnswerOrder(s, w, a);
    AnswerAccepts(s, w, a);
  }

  lemma AnswerAccepts(s: Sender, w: World, a: ToGateway)
    requires AcceptsTrue(s, w) && w.gRead <= |s.sent|
    requires a.PubackTo? && a.rc == Accepted ==> HandedOver(s, w, a.msgId)
    ensures AcceptsTrue(s, w.(csent := w.csent + [a]))
  {
    hide HandedOver;
    var v := w.(csent := w.csent + [a]);
    forall k | HandedOver(s, w, k) ensures HandedOver(s, v, k) {
      HandedOverStays(s, s, w, v, k);
    }
  }

  /** The message just read has the greatest id of all that were read. */
  lemma AnswerOrder(s: Sender, w: World, a: ToGateway)
    requires Trace(s) && InOrder(s, w) && w.gRead <= |s.sent|
    requires a.msgId != 0 ==> 0 < w.gRead && Numbered(s.sent[w.gRead - 1]) && s.sent[w.gRead - 1].msgId == a.msgId
    ensures InOrder(s, w.(csent := w.csent + [a]))
  {
    var v := w.(csent := w.csent + [a]);
    if a.msgId != 0 {
      assert WasRead(s.sent, w.gRead, a.msgId);
      forall y | 0 <= y < |w.csent| && w.csent[y].msgId != 0 ensures w.csent[y].msgId <= a.msgId {
        var i :| 0 <= i < w.gRead <= |s.sent| && Numbered(s.sent[i]) && s.sent[i].msgId == w.csent[y].msgId;
        assert i < w.gRead - 1 ==> Follows(s.sent[i], s.sent[w.gRead - 1]);
      }
    }
    forall y | 0 <= y < |v.csent| && v.csent[y].msgId != 0 ensures WasRead(s.sent, v.gRead, v.csent[y].msgId) {
      assert y < |w.csent| ==> WasRead(s.sent, w.gRead, w.csent[y].msgId);
    }
  }

  lemma StillRejected(w: World, v: World, k: nat)
    requires Rejected(w, k) && w.csent <= v.csent
    ensures Rejected(v, k)
  {
    var y :| 0 <= y < |w.csent| && w.csent[y].PubackTo? && w.csent[y].msgId == k && w.csent[y].rc == InvalidTopicId;
    assert v.csent[y] == w.csent[y];
  }

  lemma AnswerRejections(s: Sender, w: World, a: ToGateway)
    requires RejectionsFinal(s, w) && AnswerTrue(s, w, a)
    ensures RejectionsFinal(s, w.(csent := w.csent + [a]))
  {
    hide Open, Reported, Refused, Asked;
    var v := w.(csent := w.csent + [a]);
    forall k ensures Reported(v, k) == Reported(w, k) && Open(s, v, k) == Open(s, w, k) {
      SameReported(w, v, k);
      OpenSame(s, w, v, k);
    }
  }

  lemma AnswerAcks(s: Sender, w: World, a: ToGateway)
    requires AcksTrue(s, w) && AnswerTrue(s, w, a)
    ensures AcksTrue(s, w.(csent := w.csent + [a]))
  {
    hide Open, Reported, Refused, Asked;
    var v := w.(csent := w.csent + [a]);
    forall k ensures Reported(v, k) == Reported(w, k) {
      SameReported(w, v, k);
    }
  }

  /** Reports below QoS 2 are not tracked. */
  lemma ReportPlainInv(s: Sender, w: World, r: Report)
    requires Inv(s, w) && r.pub.qos != ExactlyOnce
    ensures Inv(s, w.(reports := w.reports + [r]))
  {
    hide Trace, SentStarted, ReportsTrue, RejectionsFinal, AcksTrue, SecondIds, Open, Reported, Rejected;
    var v := w.(reports := w.reports + [r]);
    forall k
      ensures Reported(v, k) == Reported(w, k) && Open(s, v, k) == Open(s, w, k) && Rejected(v, k) == Rejected(w, k)
    {
      PlainReported(w, v, r, k);
      OpenSame(s, w, v, k);
      SameRejected(w, v, k);
    }
    PlainReports(s, w, v, r);
    RejectionsRead(s, w, v);
    AcksRead(s, w, v);
    OrderRead(s, w, v);
    AcceptsStay(s, s, w, v);
  }

  lemma PlainReported(w: World, v: World, r: Report, k: nat)
    requires v.reports == w.reports + [r] && r.pub.qos != ExactlyOnce
    ensures Reported(v, k) == Reported(w, k)
  {
    if Reported(w, k) {
      var x :| 0 <= x < |w.reports| && w.reports[x].msgId == k && w.reports[x].pub.qos == ExactlyOnce;
      assert v.reports[x] == w.reports[x];
    }
  }

  lemma PlainReports(s: Sender, w: World, v: World, r: Report)
    requires ReportsTrue(s, w) && v.reports == w.reports + [r] && r.pub.qos != ExactlyOnce && v.gRead == w.gRead
    ensures ReportsTrue(s, v)
  {
    hide Delivered;
  }

  /** Forgetting the unfinished reception is safe when anything but a QoS 2 PUBLISH is read. */
  lemma ForgetInv(s: Sender, w: World)
    requires Inv(s, w) && w.gRead < |s.sent| && Numbered(s.sent[w.gRead])
    requires !(s.sent[w.gRead].Publish? && s.sent[w.gRead].pub.qos == ExactlyOnce)
    ensures Inv(s, Skip(w).(cl := w.cl.(last := 0)))
  {
    hide Trace, SentStarted, SecondIds, AcksTrue, ReportsTrue, RejectionsFinal, Open, Reported, Rejected;
    var v := Skip(w).(cl := w.cl.(last := 0));
    ReadsOn(s, w, v);
    forall k | Reported(v, k) ensures !Open(s, v, k) {
      OpenSame(s, Skip(w), v, k);
      if Open(s, Skip(w), k) {
        OnlyItself(s, w, k);
        assert false;
      }
    }
    ReadInv(s, w, v);
  }

  lemma OpenSame(s: Sender, u: World, v: World, k: nat)
    requires u.gRead == v.gRead
    ensures Open(s, u, k) == Open(s, v, k)
  {
  }

  /** The client has answered no other numbered message since. */
  ghost predicate Latest(csent: seq<ToGateway>, y: nat)
    requires y < |csent|
  {
    forall z :: y < z < |csent| ==> csent[z].msgId == 0 || csent[z].msgId == csent[y].msgId
  }

  /** The last PUBLISH the client answered was not rejected under this topic id, or else cannot come again. */
  ghost predicate MayLearn(s: Sender, w: World, topicId: nat) {
    forall y :: 0 <= y < |w.csent| && Rejects(w.csent[y]) && Latest(w.csent, y) && Open(s, w, w.csent[y].msgId) ==>
                  w.csent[y].topicId != topicId
  }

  /** Of the rejected messages only the last can come again. */
  lemma OpenIsLatest(s: Sender, w: World, y: nat)
    requires Trace(s) && InOrder(s, w) && y < |w.csent| && w.csent[y].msgId != 0 && Open(s, w, w.csent[y].msgId)
    ensures Latest(w.csent, y)
  {
    var k := w.csent[y].msgId;
    forall z | y < z < |w.csent| && w.csent[z].msgId != 0 ensures w.csent[z].msgId == k {
      assert WasRead(s.sent, w.gRead, w.csent[z].msgId);
      var i :| 0 <= i < w.gRead <= |s.sent| && Numbered(s.sent[i]) && s.sent[i].msgId == w.csent[z].msgId;
      if j :| w.gRead <= j < |s.sent| && IsPub(s.sent[j], k) {
        assert Follows(s.sent[i], s.sent[j]);
      }
    }
  }

  function Learned(w: World, topicId: nat): World {
    w.(cl := w.cl.(known := w.cl.known + {topicId}))
  }

  lemma LearnedInv(s: Sender, w: World, topicId: nat)
    requires Inv(s, w) && MayLearn(s, w, topicId)
    ensures Inv(s, Learned(w, topicId))
  {
    hide Trace, SentStarted, SecondIds, AcksTrue, ReportsTrue, RejectionsFinal, Open, Reported, Rejected;
    var v := Learned(w, topicId);
    ReadsOn(s, w, v);
    forall y | 0 <= y < |w.csent| && Rejects(w.csent[y]) && Open(s, v, w.csent[y].msgId)
      ensures w.csent[y].topicId != topicId
    {
      OpenSame(s, w, v, w.csent[y].msgId);
      OpenIsLatest(s, w, y);
    }
    ReadInv(s, w, v);
  }

  /** The reception the client remembers, if it can come again, is not under this topic id. */
  ghost predicate MayForget(s: Sender, w: World, topicId: nat) {
    w.cl.last != 0 ==>
      && (forall j :: w.gRead <= j < |s.sent| && IsPub(s.sent[j], w.cl.last) ==>
            !(s.sent[j].kind == Normal && s.sent[j].topicId == topicId))
      && (s.curr.Some? && s.fl.msgId == w.cl.last && !s.fl.acked ==>
            !(s.fl.info.kind == Normal && s.fl.info.topicId == topicId))
  }

  /** All messages of one id have one topic id. */
  lemma UseIsLast(s: Sender, w: World, topicId: nat, i: nat)
    requires Trace(s) && ReportsTrue(s, w) && Remembered(s, w) && MayForget(s, w, topicId)
    requires i < |s.sent| && InUse(s, w, s.sent[i])
    ensures s.sent[i].kind != Normal || s.sent[i].topicId != topicId
  {
    var k := s.sent[i].msgId;
    assert w.cl.last == k;
    if j :| w.gRead <= j < |s.sent| && IsPub(s.sent[j], k) {
      assert i < j ==> Follows(s.sent[i], s.sent[j]);
      assert j < i ==> Follows(s.sent[j], s.sent[i]);
    } else {
      assert OfCurrent(s, s.sent[i]);
    }
  }

  function Forgotten(w: World, topicId: nat): World {
    w.(cl := w.cl.(known := w.cl.known - {topicId}))
  }

  lemma ForgottenInv(s: Sender, w: World, topicId: nat)
    requires Inv(s, w) && MayForget(s, w, topicId)
    ensures Inv(s, Forgotten(w, topicId))
  {
    hide Trace, SentStarted, SecondIds, AcksTrue, ReportsTrue, RejectionsFinal, Open, Reported, Rejected;
    var v := Forgotten(w, topicId);
    ReadsOn(s, w, v);
    forall i | 0 <= i < |s.sent| && InUse(s, v, s.sent[i]) ensures Resolved(v, s.sent[i]) {
      assert InUse(s, w, s.sent[i]);
      UseIsLast(s, w, topicId, i);
    }
    ReadInv(s, w, v);
  }

  /** The reception the client remembers cannot come again. */
  ghost predicate MayClean(s: Sender, w: World) {
    w.cl.last != 0 ==> !Open(s, w, w.cl.last)
  }

  /** A clean CONNECT: the client drops all it knew. */
  function Cleaned(w: World): World {
    w.(cl := Client(0, {}))
  }

  lemma CleanedInv(s: Sender, w: World)
    requires Inv(s, w) && MayClean(s, w)
    ensures Inv(s, Cleaned(w))
  {
    hide Trace, SentStarted, SecondIds, AcksTrue, ReportsTrue, RejectionsFinal, Open, Reported, Rejected;
    var v := Cleaned(w);
    ReadsOn(s, w, v);
    forall k | Reported(v, k) ensures !Open(s, v, k) {
      OpenSame(s, w, v, k);
      ReportedNotRejected(s, w, k);
    }
    ReadInv(s, w, v);
  }

  /** A REGISTER is read after every PUBLISH that was rejected before it. */
  lemma LearnInv(s: Sender, w: World)
    requires Inv(s, w) && w.gRead < |s.sent| && s.sent[w.gRead].Register?
    ensures Inv(s, Learned(Skip(w), s.sent[w.gRead].topicId))
  {
    hide Trace, SentStarted, SecondIds, AcksTrue, ReportsTrue, RejectionsFinal, KnownWhileOpen, Remembered;
    hide Open, Reported, Rejected;
    LoseInv(s, w);
    forall y | 0 <= y < |w.csent| && Rejects(w.csent[y]) ensures !Open(s, Skip(w), w.csent[y].msgId) {
      if Open(s, Skip(w), w.csent[y].msgId) {
        OnlyItselfRejected(s, w, y);
        assert false;
      }
    }
    LearnedInv(s, Skip(w), s.sent[w.gRead].topicId);
  }

  lemma UnknownNotReported(s: Sender, w: World)
    requires Trace(s) && ReportsTrue(s, w) && KnownWhileOpen(s, w) && w.gRead < |s.sent| && Tracked(s.sent[w.gRead])
    requires !Resolved(w, s.sent[w.gRead])
    ensures !Reported(w, s.sent[w.gRead].msgId)
  {
    hide ReportsTrue, Trace;
    assert IsPub(s.sent[w.gRead], s.sent[w.gRead].msgId);
    assert Open(s, w, s.sent[w.gRead].msgId);
  }

  lemma RejectInv(s: Sender, w: World)
    requires Inv(s, w) && w.gRead < |s.sent| && s.sent[w.gRead].Publish? && !Resolved(w, s.sent[w.gRead])
    ensures Inv(s, OnPublish(Skip(w), s.sent[w.gRead]))
  {
    hide Trace, SentStarted, SecondIds, AcksTrue, ReportsTrue, Remembered, RejectionsFinal, KnownWhileOpen;
    hide Open, Reported;
    var m := s.sent[w.gRead];
    LoseInv(s, w);
    if Tracked(m) {
      UnknownNotReported(s, w);
      SameReported(w, Skip(w), m.msgId);
      assert IsPub(s.sent[w.gRead], m.msgId);
    }
    QosZeroId(s, w);
    AnswerInv(s, Skip(w), PubackTo(m.topicId, m.msgId, InvalidTopicId));
  }

  lemma QosZeroId(s: Sender, w: World)
    requires Inv(s, w) && w.gRead < |s.sent|
    ensures s.sent[w.gRead].Publish? && !Tracked(s.sent[w.gRead]) ==> s.sent[w.gRead].msgId == 0
  {
  }

  lemma ReportInv(s: Sender, w: World)
    requires Inv(s, w) && w.gRead < |s.sent| && s.sent[w.gRead].Publish? && s.sent[w.gRead].pub.qos == ExactlyOnce
    requires Resolved(w, s.sent[w.gRead]) && w.cl.last != s.sent[w.gRead].msgId
    ensures var m := s.sent[w.gRead];
            var v := Skip(w).(cl := w.cl.(last := m.msgId), reports := w.reports + [Report(m.msgId, m.pub)]);
            Inv(s, v) && Reported(v, m.msgId)
  {
    hide Trace, SentStarted, SecondIds, AcksTrue, Open, ReportsTrue, RejectionsFinal, Reported, Rejected, Remembered;
    hide KnownWhileOpen;
    var m := s.sent[w.gRead];
    LoseInv(s, w);
    AcceptedNotRejected(s, w);
    var u := Skip(w);
    SameRejected(w, u, m.msgId);
    var v := u.(cl := w.cl.(last := m.msgId), reports := w.reports + [Report(m.msgId, m.pub)]);
    forall k ensures Open(s, v, k) == Open(s, u, k) && (Reported(v, k) <==> Reported(u, k) || k == m.msgId) {
      OpenSame(s, u, v, k);
      ReportedPush(u, v, Report(m.msgId, m.pub), k);
    }
    forall k ensures Rejected(v, k) == Rejected(u, k) {
      SameRejected(u, v, k);
    }
    forall x: nat | x < |w.reports| && w.reports[x].pub.qos == ExactlyOnce
      ensures w.reports[x].msgId != m.msgId && w.reports[x].pub.serial != m.pub.serial
    {
      FreshReport(s, w, x);
    }
    ReportsPush(s, w);
    forall k | Reported(v, k) && Open(s, v, k) ensures k == m.msgId {
      if k != m.msgId {
        SameReported(w, u, k);
        OnlyItself(s, w, k);
      }
    }
    Remember(s, v);
    KnownPush(s, v, w.gRead);
    RejectionsPush(s, u, v, m.msgId);
    AcksPush(s, u, v);
    OrderRead(s, u, v);
    AcceptsStay(s, s, u, v);
  }

  lemma Remember(s: Sender, v: World)
    requires forall k :: Reported(v, k) && Open(s, v, k) ==> k == v.cl.last
    requires Reported(v, v.cl.last)
    ensures Remembered(s, v)
  {
  }

  /** All that repeats the reported message has its topic id. */
  lemma KnownPush(s: Sender, v: World, g: nat)
    requires Trace(s) && g < |s.sent| && Tracked(s.sent[g]) && Resolved(v, s.sent[g])
    requires forall k :: Reported(v, k) && Open(s, v, k) ==> k == s.sent[g].msgId
    ensures KnownWhileOpen(s, v)
  {
    hide Open, Reported;
    forall i | 0 <= i < |s.sent| && InUse(s, v, s.sent[i]) ensures Resolved(v, s.sent[i]) {
      assert s.sent[i].msgId == s.sent[g].msgId;
      assert i < g ==> Follows(s.sent[i], s.sent[g]);
      assert g < i ==> Follows(s.sent[g], s.sent[i]);
    }
  }

  lemma ReportedPush(u: World, v: World, r: Report, k: nat)
    requires v.reports == u.reports + [r] && r.pub.qos == ExactlyOnce
    ensures Reported(v, k) <==> Reported(u, k) || k == r.msgId
  {
    if Reported(u, k) {
      var x :| 0 <= x < |u.reports| && u.reports[x].msgId == k && u.reports[x].pub.qos == ExactlyOnce;
      assert v.reports[x] == u.reports[x];
    }
    assert v.reports[|u.reports|] == r;
  }

  lemma ReportsPush(s: Sender, w: World)
    requires ReportsTrue(s, w) && w.gRead < |s.sent| && s.sent[w.gRead].Publish?
    requires s.sent[w.gRead].pub.qos == ExactlyOnce
    requires forall x :: 0 <= x < |w.reports| && w.reports[x].pub.qos == ExactlyOnce ==>
               w.reports[x].msgId != s.sent[w.gRead].msgId && w.reports[x].pub.serial != s.sent[w.gRead].pub.serial
    ensures var m := s.sent[w.gRead];
            ReportsTrue(s, Skip(w).(cl := w.cl.(last := m.msgId), reports := w.reports + [Report(m.msgId, m.pub)]))
  {
    hide Delivered;
    var m := s.sent[w.gRead];
    var v := Skip(w).(cl := w.cl.(last := m.msgId), reports := w.reports + [Report(m.msgId, m.pub)]);
    forall x | 0 <= x < |v.reports| && v.reports[x].pub.qos == ExactlyOnce
      ensures Delivered(s.sent, v.gRead, v.reports[x])
    {
      if x < |w.reports| {
        DeliveredRead(s.sent, w.gRead, v.gRead, w.reports[x]);
      } else {
        JustDelivered(s.sent, w.gRead);
      }
    }
  }

  lemma JustDelivered(sent: seq<ToClient>, read: nat)
    requires read < |sent| && Tracked(sent[read])
    ensures Delivered(sent, read + 1, Report(sent[read].msgId, sent[read].pub))
  {
    assert IsPub(sent[read], sent[read].msgId);
  }

  lemma RejectionsPush(s: Sender, u: World, v: World, k: nat)
    requires RejectionsFinal(s, u) && v.csent == u.csent && v.gRead == u.gRead && v.cl.known == u.cl.known
    requires forall j :: Open(s, v, j) == Open(s, u, j) && (Reported(v, j) <==> Reported(u, j) || j == k)
    requires !Rejected(u, k)
    ensures RejectionsFinal(s, v)
  {
    hide Open, Reported, Refused;
  }

  lemma AcksPush(s: Sender, u: World, v: World)
    requires AcksTrue(s, u) && SecondIds(s, u) && v.csent == u.csent
    requires forall k :: Reported(u, k) ==> Reported(v, k)
    requires forall k :: Rejected(v, k) == Rejected(u, k)
    ensures AcksTrue(s, v) && SecondIds(s, v)
  {
    hide Reported, Rejected, Asked;
  }

  /** Whatever the client reads, the joint invariant stays. */
  lemma DeliverInv(accepts: Accepts, s: Sender, w: World)
    requires Inv(s, w) && w.gRead < |s.sent|
    ensures Inv(s, OnMessage(accepts, Skip(w), s.sent[w.gRead]))
  {
    hide Inv;
    LoseInv(s, w);
    match s.sent[w.gRead] {
      case Register(_, _, _) => DeliverRegister(accepts, s, w);
      case Publish(_, _, _, _, _) => DeliverPublish(s, w);
      case Pubrel(_) => DeliverPubrel(s, w);
      case Disconnect =>
      case Pingresp =>
    }
  }

  lemma DeliverRegister(accepts: Accepts, s: Sender, w: World)
    requires Inv(s, w) && w.gRead < |s.sent| && s.sent[w.gRead].Register?
    ensures Inv(s, OnRegister(accepts, Skip(w), s.sent[w.gRead]))
  {
    hide Inv;
    var m := s.sent[w.gRead];
    LoseInv(s, w);
    if !accepts(m.pub.topic) {
      AnswerInv(s, Skip(w), RegackTo(m.topicId, m.msgId, NotSupported));
    } else if !ValidTopicId(m.topicId) {
      AnswerInv(s, Skip(w), RegackTo(m.topicId, m.msgId, InvalidTopicId));
    } else {
      LearnInv(s, w);
      AnswerInv(s, Learned(Skip(w), m.topicId), RegackTo(m.topicId, m.msgId, Accepted));
    }
  }

  lemma DeliverPubrel(s: Sender, w: World)
    requires Inv(s, w) && w.gRead < |s.sent| && s.sent[w.gRead].Pubrel?
    ensures Inv(s, OnPubrel(Skip(w), s.sent[w.gRead]))
  {
    hide Trace, SentStarted, SecondIds, Open, ReportsTrue, RejectionsFinal, Reported, Remembered;
    var m := s.sent[w.gRead];
    LoseInv(s, w);
    ForgetInv(s, w);
    var v := if w.cl.last == m.msgId then Skip(w).(cl := w.cl.(last := 0)) else Skip(w);
    SameReported(w, v, m.msgId);
    AnswerInv(s, v, PubcompTo(m.msgId));
  }

  lemma DeliverPublish(s: Sender, w: World)
    requires Inv(s, w) && w.gRead < |s.sent| && s.sent[w.gRead].Publish?
    ensures Inv(s, OnPublish(Skip(w), s.sent[w.gRead]))
  {
    hide Trace, SentStarted, SecondIds, Open, ReportsTrue, RejectionsFinal, Reported, AcksTrue;
    var m := s.sent[w.gRead];
    var r := Report(m.msgId, m.pub);
    LoseInv(s, w);
    if !Resolved(w, m) {
      RejectInv(s, w);
    } else if m.pub.qos == AtMostOnce {
      ReportPlainInv(s, Skip(w), r);
    } else if m.pub.qos == AtLeastOnce {
      ForgetInv(s, w);
      var v := Skip(w).(cl := w.cl.(last := 0));
      ReportPlainInv(s, v, r);
      JustHandedOver(s, w, v.(reports := v.reports + [r]));
      AnswerInv(s, v.(reports := v.reports + [r]), PubackTo(m.topicId, m.msgId, Accepted));
    } else if w.cl.last != m.msgId {
      ReportInv(s, w);
      var v := Skip(w).(cl := w.cl.(last := m.msgId), reports := w.reports + [r]);
      AnswerInv(s, v, PubrecTo(m.msgId));
    } else {
      TrackedId(s, w);
      SameReported(w, Skip(w), m.msgId);
      AnswerInv(s, Skip(w), PubrecTo(m.msgId));
    }
  }

  lemma JustHandedOver(s: Sender, w: World, v: World)
    requires w.gRead < |s.sent| && Tracked(s.sent[w.gRead]) && v.gRead == w.gRead + 1
    requires v.reports == w.reports + [Report(s.sent[w.gRead].msgId, s.sent[w.gRead].pub)]
    ensures HandedOver(s, v, s.sent[w.gRead].msgId)
  {
    hide Delivered;
    JustDelivered(s.sent, w.gRead);
    assert v.reports[|w.reports|].msgId == s.sent[w.gRead].msgId;
  }

  lemma TrackedId(s: Sender, w: World)
    requires Inv(s, w) && w.gRead < |s.sent|
    ensures Tracked(s.sent[w.gRead]) ==> 1 <= s.sent[w.gRead].msgId
  {
  }

  /* The whole system */

  /** `completed` lists the publications the gateway retired on a PUBCOMP, `confirmed` those on an accepting PUBACK. */
  datatype System = System(run: Run, w: World, cRead: nat, completed: seq<Pub>, confirmed: seq<Pub>)

  datatype Move =
    | AtGateway(e: Event)
    | GatewayReads
    | GatewayLoses
    | ClientReads
    | ClientLoses
    | Learn(topicId: nat)
    | Forget(topicId: nat)
    | CleanConnect

  function Begin(known: set<nat>): System {
    System(Fresh(), World(0, Client(0, known), [], []), 0, [], [])
  }

  function EventOf(a: ToGateway): Event {
    match a
    case RegackTo(topicId, msgId, rc) => Regack(topicId, msgId, rc)
    case PubackTo(topicId, msgId, rc) => Puback(topicId, msgId, rc)
    case PubrecTo(msgId) => Pubrec(msgId)
    case PubcompTo(msgId) => Pubcomp(msgId)
  }

  function Completes(s: Sender, a: ToGateway): seq<Pub> {
    if a.PubcompTo? && s.curr.Some? && a.msgId == s.fl.msgId then [s.curr.value] else []
  }

  function Confirms(s: Sender, a: ToGateway): seq<Pub> {
    if a.PubackTo? && a.rc == Accepted && s.curr.Some? && s.curr.value.qos != ExactlyOnce && a.msgId == s.fl.msgId
       && a.topicId == s.fl.info.topicId then [s.curr.value] else []
  }

  /** One move. A move that is not possible changes nothing; acknowledgements reach the gateway only by link. */
  function Next(cfg: Config, accepts: Accepts, y: System, mv: Move): System {
    match mv
    case AtGateway(e) => if IsAck(e) then y else y.(run := Step(cfg, y.run, e))
    case GatewayReads =>
      if y.cRead < |y.w.csent| then
        var a := y.w.csent[y.cRead];
        y.(run := Step(cfg, y.run, EventOf(a)), cRead := y.cRead + 1,
           completed := y.completed + Completes(y.run.snd, a), confirmed := y.confirmed + Confirms(y.run.snd, a))
      else y
    case GatewayLoses => if y.cRead < |y.w.csent| then y.(cRead := y.cRead + 1) else y
    case ClientReads =>
      if y.w.gRead < |y.run.snd.sent| then y.(w := OnMessage(accepts, Skip(y.w), y.run.snd.sent[y.w.gRead])) else y
    case ClientLoses => if y.w.gRead < |y.run.snd.sent| then y.(w := Skip(y.w)) else y
    case Learn(topicId) => y.(w := Learned(y.w, topicId))
    case Forget(topicId) => y.(w := Forgotten(y.w, topicId))
    case CleanConnect => y.(w := Cleaned(y.w))
  }

  function Play(cfg: Config, accepts: Accepts, y: System, mvs: seq<Move>): System
    decreases |mvs|
  {
    if mvs == [] then y else Play(cfg, accepts, Next(cfg, accepts, y, mvs[0]), mvs[1..])
  }

  ghost predicate WasReported(rs: seq<Report>, p: Pub) {
    exists x :: 0 <= x < |rs| && rs[x].pub == p
  }

  ghost predicate CompletedReported(y: System) {
    && (forall c :: 0 <= c < |y.completed| ==>
          y.completed[c].qos == ExactlyOnce && WasReported(y.w.reports, y.completed[c]))
    && (forall c :: 0 <= c < |y.confirmed| ==>
          y.confirmed[c].qos == AtLeastOnce && WasReported(y.w.reports, y.confirmed[c]))
  }

  ghost predicate SysInv(cfg: Config, y: System) {
    Ledger(cfg, y.run) && Inv(y.run.snd, y.w) && CompletedReported(y)
  }

  lemma BeginInv(cfg: Config, known: set<nat>)
    ensures SysInv(cfg, Begin(known))
  {
    FreshLedger(cfg);
  }

  lemma GatewayInv(cfg: Config, r: Run, w: World, e: Event)
    requires Ledger(cfg, r) && Inv(r.snd, w) && !IsAck(e) && !cfg.narrow
    ensures Inv(Step(cfg, r, e).snd, w)
  {
    hide Inv, Check, OnTick, Good;
    var s, t := r.snd, Step(cfg, r, e).snd;
    LedgerGood(cfg, r);
    match e {
      case Tick =>
        if s.armed {
          TickInv(cfg, s, w);
        }
      case Pingreq(_) =>
        SameInv(s, s.(ping := true), w);
        PingGood(cfg, s);
        if e.sameClient && s.ses.status == Asleep {
          CheckInv(cfg, s.(ping := true), w);
        }
      case OtherMessage => CheckInv(cfg, s, w);
      case _ => SameInv(s, t, w);
    }
  }

  lemma PingGood(cfg: Config, s: Sender)
    requires Good(cfg, s)
    ensures Good(cfg, s.(ping := true))
  {
    hide Count, Ordered;
    assert InLine(s.(ping := true)) == InLine(s);
  }

  /** A PUBCOMP that retires the current publication was preceded by its report. */
  lemma CompletionReported(s: Sender, w: World, y: nat)
    requires Inv(s, w) && y < |w.csent| && w.csent[y].PubcompTo? && s.curr.Some? && w.csent[y].msgId == s.fl.msgId
    ensures WasReported(w.reports, s.curr.value) && s.curr.value.qos == ExactlyOnce
  {
    hide Remembered, RejectionsFinal, SecondIds, SentStarted, Open;
    var x :| 0 <= x < |w.reports| && w.reports[x].msgId == s.fl.msgId && w.reports[x].pub.qos == ExactlyOnce;
    var i :| 0 <= i < w.gRead <= |s.sent| && IsPub(s.sent[i], s.fl.msgId) && s.sent[i].pub == w.reports[x].pub;
    assert OfCurrent(s, s.sent[i]);
  }

  /** So was a PUBACK that retires it. */
  lemma ConfirmationReported(s: Sender, w: World, y: nat)
    requires Inv(s, w) && y < |w.csent| && Confirms(s, w.csent[y]) != []
    ensures WasReported(w.reports, s.curr.value) && s.curr.value.qos == AtLeastOnce
  {
    hide Remembered, RejectionsFinal, SecondIds, SentStarted, Open, ReportsTrue, KnownWhileOpen, AcksTrue, InOrder;
    assert HandedOver(s, w, s.fl.msgId);
    var x :| 0 <= x < |w.reports| && w.reports[x].msgId == s.fl.msgId && Delivered(s.sent, w.gRead, w.reports[x]);
    var i :| 0 <= i < w.gRead <= |s.sent| && IsPub(s.sent[i], s.fl.msgId) && s.sent[i].pub == w.reports[x].pub;
    assert OfCurrent(s, s.sent[i]);
  }

  lemma GatewayReadsInv(cfg: Config, accepts: Accepts, y: System)
    requires SysInv(cfg, y) && y.cRead < |y.w.csent|
    requires !cfg.narrow
    ensures SysInv(cfg, Next(cfg, accepts, y, GatewayReads))
  {
    hide Inv, Ledger, Good, OnRegack, OnPuback, OnPubrec, OnPubcomp;
    var a := y.w.csent[y.cRead];
    LedgerGood(cfg, y.run);
    StepLedger(cfg, y.run, EventOf(a));
    AckInv(cfg, y.run.snd, y.w, y.cRead);
    if Completes(y.run.snd, a) != [] {
      CompletionReported(y.run.snd, y.w, y.cRead);
    }
    if Confirms(y.run.snd, a) != [] {
      ConfirmationReported(y.run.snd, y.w, y.cRead);
    }
  }

  lemma ClientMoveInv(cfg: Config, y: System, v: World)
    requires SysInv(cfg, y) && Inv(y.run.snd, v) && y.w.reports <= v.reports
    ensures SysInv(cfg, y.(w := v))
  {
    hide Inv, Ledger;
    forall p | WasReported(y.w.reports, p) ensures WasReported(v.reports, p) {
      var x :| 0 <= x < |y.w.reports| && y.w.reports[x].pub == p;
      assert v.reports[x] == y.w.reports[x];
    }
  }

  /** The client learns no topic id while the PUBLISH it last answered was rejected under it and can come again; while
      the reception it remembers can come again, it does not forget its topic id and does not start clean. */
  ghost predicate MemoryStays(y: System, mv: Move) {
    match mv
    case Learn(topicId) => MayLearn(y.run.snd, y.w, topicId)
    case Forget(topicId) => MayForget(y.run.snd, y.w, topicId)
    case CleanConnect => MayClean(y.run.snd, y.w)
    case _ => true
  }

  lemma NextInv(cfg: Config, accepts: Accepts, y: System, mv: Move)
    requires SysInv(cfg, y) && !cfg.narrow && MemoryStays(y, mv)
    ensures SysInv(cfg, Next(cfg, accepts, y, mv))
  {
    hide Inv, Ledger, Step;
    match mv {
      case AtGateway(e) =>
        if !IsAck(e) {
          StepLedger(cfg, y.run, e);
          GatewayInv(cfg, y.run, y.w, e);
        }
      case GatewayReads =>
        if y.cRead < |y.w.csent| {
          GatewayReadsInv(cfg, accepts, y);
        }
      case GatewayLoses =>
      case ClientReads =>
        if y.w.gRead < |y.run.snd.sent| {
          DeliverInv(accepts, y.run.snd, y.w);
          ClientMoveInv(cfg, y, OnMessage(accepts, Skip(y.w), y.run.snd.sent[y.w.gRead]));
        }
      case ClientLoses =>
        if y.w.gRead < |y.run.snd.sent| {
          LoseInv(y.run.snd, y.w);
          ClientMoveInv(cfg, y, Skip(y.w));
        }
      case Learn(topicId) =>
        LearnedInv(y.run.snd, y.w, topicId);
        ClientMoveInv(cfg, y, Learned(y.w, topicId));
      case Forget(topicId) =>
        ForgottenInv(y.run.snd, y.w, topicId);
        ClientMoveInv(cfg, y, Forgotten(y.w, topicId));
      case CleanConnect =>
        CleanedInv(y.run.snd, y.w);
        ClientMoveInv(cfg, y, Cleaned(y.w));
    }
  }

  /** How often a publication was handed to the application. */
  ghost function Deliveries(rs: seq<Report>, p: Pub): nat {
    if rs == [] then 0 else Deliveries(rs[..|rs| - 1], p) + if rs[|rs| - 1].pub == p then 1 else 0
  }

  lemma {:induction false} OneDelivery(rs: seq<Report>, p: Pub)
    requires p.qos == ExactlyOnce
    requires forall a, b :: 0 <= a < b < |rs| && rs[a].pub.qos == rs[b].pub.qos == ExactlyOnce ==>
               rs[a].pub.serial != rs[b].pub.serial
    ensures Deliveries(rs, p) == if WasReported(rs, p) then 1 else 0
  {
    if rs != [] {
      var front, last := rs[..|rs| - 1], rs[|rs| - 1];
      OneDelivery(front, p);
      assert WasReported(rs, p) <==> WasReported(front, p) || last.pub == p by {
        if WasReported(front, p) {
          var x :| 0 <= x < |front| && front[x].pub == p;
          assert rs[x].pub == p;
        }
      }
    }
  }
}
