/** What the receiving side of the client does with everything it hears, told by the history alone: which topic ids it
    knows, which QoS 2 reception it remembers, what it hands to the application and what it answers. */
module Reception {
  import opened Protocol
  import opened PubSend
  import opened PubSendRuns
  import opened QosTwo

  /** A message of the gateway, or a change of what the client keeps for the session. */
  datatype Input =
    | Got(m: ToClient)
    | Learns(topicId: nat)
    | Forgets(topicId: nat)
    | StartsClean

  function Hear(accepts: Accepts, w: World, input: Input): World {
    match input
    case Got(m) => OnMessage(accepts, w, m)
    case Learns(topicId) => Learned(w, topicId)
    case Forgets(topicId) => Forgotten(w, topicId)
    case StartsClean => Cleaned(w)
  }

  function After(accepts: Accepts, known: set<nat>, ins: seq<Input>): World {
    if ins == [] then World(0, Client(0, known), [], [])
    else Hear(accepts, After(accepts, known, ins[..|ins| - 1]), ins[|ins| - 1])
  }

  /* What the history says */

  predicate Teaches(accepts: Accepts, input: Input, topicId: nat) {
    || input == Learns(topicId)
    || (input.Got? && input.m.Register? && input.m.topicId == topicId && accepts(input.m.pub.topic) &&
        ValidTopicId(topicId))
  }

  predicate Unteaches(input: Input, topicId: nat) {
    input == Forgets(topicId) || input == StartsClean
  }

  /** The topic id was learned and not forgotten since. */
  ghost predicate Learnt(accepts: Accepts, ins: seq<Input>, topicId: nat) {
    exists k :: 0 <= k < |ins| && Teaches(accepts, ins[k], topicId)
                && forall l :: k < l < |ins| ==> !Unteaches(ins[l], topicId)
  }

  /** The topic id was known from the start or learned, and not forgotten since. */
  ghost predicate Knows(accepts: Accepts, known: set<nat>, ins: seq<Input>, topicId: nat) {
    || (topicId in known && forall l :: 0 <= l < |ins| ==> !Unteaches(ins[l], topicId))
    || Learnt(accepts, ins, topicId)
  }

  /** Input number `k` is a PUBLISH under a topic id that means something to the client when it comes. */
  ghost predicate Takes(accepts: Accepts, known: set<nat>, ins: seq<Input>, k: nat) {
    && k < |ins| && ins[k].Got? && ins[k].m.Publish?
    && (ins[k].m.kind == Normal ==> Knows(accepts, known, ins[..k], ins[k].m.topicId))
  }

  /** Input number `l` ends the reception of the QoS 2 message with this id. */
  ghost predicate Ends(accepts: Accepts, known: set<nat>, ins: seq<Input>, l: nat, id: nat) {
    && l < |ins|
    && (|| ins[l] == StartsClean || ins[l] == Got(Pubrel(id))
        || (Takes(accepts, known, ins, l) &&
            match ins[l].m.pub.qos
            case AtMostOnce => false
            case AtLeastOnce => true
            case ExactlyOnce => ins[l].m.msgId != id))
  }

  /** A QoS 2 message with this id was taken and its reception has not ended since. */
  ghost predicate Remembers(accepts: Accepts, known: set<nat>, ins: seq<Input>, id: nat) {
    exists k: nat ::
      && Takes(accepts, known, ins, k) && ins[k].m.pub.qos == ExactlyOnce && ins[k].m.msgId == id
      && forall l: nat :: k < l < |ins| ==> !Ends(accepts, known, ins, l, id)
  }

  /** The messages handed over: each PUBLISH taken, except a QoS 2 one whose reception is under way. */
  ghost function HandsOver(accepts: Accepts, known: set<nat>, ins: seq<Input>): seq<Report> {
    if ins == [] then []
    else
      var n := |ins| - 1;
      HandsOver(accepts, known, ins[..n]) +
      if !Takes(accepts, known, ins, n) then []
      else
        var m := ins[n].m;
        if m.pub.qos == ExactlyOnce && m.msgId != 0 && Remembers(accepts, known, ins[..n], m.msgId) then []
        else [Report(m.msgId, m.pub)]
  }

  /** The answers: one to each REGISTER, PUBREL and PUBLISH, except that a QoS 0 PUBLISH that is taken gets none, and
      neither does a QoS 2 one that comes again without DUP. */
  ghost function Replies(accepts: Accepts, known: set<nat>, ins: seq<Input>): seq<ToGateway> {
    if ins == [] then []
    else
      var n := |ins| - 1;
      Replies(accepts, known, ins[..n]) +
      if !ins[n].Got? then []
      else match ins[n].m
        case Register(topicId, msgId, pub) =>
          [RegackTo(topicId, msgId,
                    if !accepts(pub.topic) then NotSupported
                    else if ValidTopicId(topicId) then Accepted else InvalidTopicId)]
        case Pubrel(msgId) => [PubcompTo(msgId)]
        case Disconnect => []
        case Pingresp => []
        case Publish(topicId, _, msgId, dup, pub) =>
          if !Takes(accepts, known, ins, n) then [PubackTo(topicId, msgId, InvalidTopicId)]
          else match pub.qos
            case AtMostOnce => []
            case AtLeastOnce => [PubackTo(topicId, msgId, Accepted)]
            case ExactlyOnce =>
              if !dup && msgId != 0 && Remembers(accepts, known, ins[..n], msgId) then [] else [PubrecTo(msgId)]
  }

  /** The client's state is what the history says. */
  ghost predicate Exact(accepts: Accepts, known: set<nat>, ins: seq<Input>, w: World) {
    && (forall topicId :: topicId in w.cl.known <==> Knows(accepts, known, ins, topicId))
    && (forall id :: id != 0 ==> (w.cl.last == id <==> Remembers(accepts, known, ins, id)))
    && w.reports == HandsOver(accepts, known, ins) && w.csent == Replies(accepts, known, ins)
  }

  /* One more input */

  lemma LearntStep(accepts: Accepts, ins: seq<Input>, input: Input, topicId: nat)
    ensures Learnt(accepts, ins + [input], topicId) <==>
              Teaches(accepts, input, topicId) || (Learnt(accepts, ins, topicId) && !Unteaches(input, topicId))
  {
    var ins', n := ins + [input], |ins|;
    if Teaches(accepts, input, topicId) {
      assert Teaches(accepts, ins'[n], topicId);
    } else if Learnt(accepts, ins, topicId) && !Unteaches(input, topicId) {
      var k :| 0 <= k < n && Teaches(accepts, ins[k], topicId)
               && forall l :: k < l < n ==> !Unteaches(ins[l], topicId);
      assert Teaches(accepts, ins'[k], topicId);
    }
    if Learnt(accepts, ins', topicId) && !Teaches(accepts, input, topicId) {
      var k :| 0 <= k <= n && Teaches(accepts, ins'[k], topicId)
               && forall l :: k < l <= n ==> !Unteaches(ins'[l], topicId);
      assert Teaches(accepts, ins[k], topicId) && !Unteaches(ins'[n], topicId);
      forall l | k < l < n ensures !Unteaches(ins[l], topicId) {
        assert ins'[l] == ins[l];
      }
    }
  }

  lemma KnowsStep(accepts: Accepts, known: set<nat>, ins: seq<Input>, input: Input, topicId: nat)
    ensures Knows(accepts, known, ins + [input], topicId) <==>
              Teaches(accepts, input, topicId) ||
              (Knows(accepts, known, ins, topicId) && !Unteaches(input, topicId))
  {
    hide Teaches, Unteaches, Learnt;
    var ins' := ins + [input];
    LearntStep(accepts, ins, input, topicId);
    assert (forall l :: 0 <= l < |ins'| ==> !Unteaches(ins'[l], topicId)) <==>
           (forall l :: 0 <= l < |ins| ==> !Unteaches(ins[l], topicId)) && !Unteaches(input, topicId) by {
      assert ins'[|ins|] == input;
      assert forall l :: 0 <= l < |ins| ==> ins'[l] == ins[l];
    }
  }

  lemma TakesFront(accepts: Accepts, known: set<nat>, ins: seq<Input>, input: Input, k: nat)
    requires k < |ins|
    ensures Takes(accepts, known, ins + [input], k) == Takes(accepts, known, ins, k)
  {
    assert (ins + [input])[..k] == ins[..k];
  }

  lemma RemembersStep(accepts: Accepts, known: set<nat>, ins: seq<Input>, input: Input, id: nat)
    ensures var ins', n := ins + [input], |ins|;
            Remembers(accepts, known, ins', id) <==>
              || (Takes(accepts, known, ins', n) && input.m.pub.qos == ExactlyOnce && input.m.msgId == id)
              || (Remembers(accepts, known, ins, id) && !Ends(accepts, known, ins', n, id))
  {
    hide Knows;
    var ins', n := ins + [input], |ins|;
    forall k: nat | k < n
      ensures Takes(accepts, known, ins', k) == Takes(accepts, known, ins, k)
      ensures Ends(accepts, known, ins', k, id) == Ends(accepts, known, ins, k, id)
    {
      TakesFront(accepts, known, ins, input, k);
    }
    if Remembers(accepts, known, ins, id) && !Ends(accepts, known, ins', n, id) {
      var k: nat :| Takes(accepts, known, ins, k) && ins[k].m.pub.qos == ExactlyOnce && ins[k].m.msgId == id
                    && forall l: nat :: k < l < n ==> !Ends(accepts, known, ins, l, id);
      TakesRange(accepts, known, ins, k);
      assert Takes(accepts, known, ins', k);
    }
    if Remembers(accepts, known, ins', id) {
      var k: nat :| Takes(accepts, known, ins', k) && ins'[k].m.pub.qos == ExactlyOnce && ins'[k].m.msgId == id
                    && forall l: nat :: k < l <= n ==> !Ends(accepts, known, ins', l, id);
      TakesRange(accepts, known, ins', k);
      if k < n {
        assert Takes(accepts, known, ins, k);
      }
    }
  }

  lemma TakesRange(accepts: Accepts, known: set<nat>, ins: seq<Input>, k: nat)
    requires Takes(accepts, known, ins, k)
    ensures k < |ins| && ins[k].Got? && ins[k].m.Publish?
  {
  }

  lemma HearKnows(accepts: Accepts, known: set<nat>, ins: seq<Input>, input: Input, w: World)
    requires Exact(accepts, known, ins, w)
    ensures forall topicId ::
              topicId in Hear(accepts, w, input).cl.known <==> Knows(accepts, known, ins + [input], topicId)
  {
    hide Knows, Remembers, HandsOver, Replies;
    forall topicId
      ensures topicId in Hear(accepts, w, input).cl.known <==> Knows(accepts, known, ins + [input], topicId)
    {
      KnowsStep(accepts, known, ins, input, topicId);
    }
  }

  /** Whether the PUBLISH just heard is taken. */
  lemma TakesLast(accepts: Accepts, known: set<nat>, ins: seq<Input>, m: ToClient, w: World)
    requires Exact(accepts, known, ins, w) && m.Publish?
    ensures Takes(accepts, known, ins + [Got(m)], |ins|) <==> Resolved(w, m)
  {
    hide Knows, Remembers, HandsOver, Replies;
    assert (ins + [Got(m)])[..|ins|] == ins;
  }

  lemma HearRemembers(accepts: Accepts, known: set<nat>, ins: seq<Input>, input: Input, w: World, id: nat)
    requires Exact(accepts, known, ins, w) && id != 0
    ensures Hear(accepts, w, input).cl.last == id <==> Remembers(accepts, known, ins + [input], id)
  {
    hide Exact, Takes, Remembers;
    assert w.cl.last == id <==> Remembers(accepts, known, ins, id) by {
      LastIs(accepts, known, ins, w, id);
    }
    RemembersStep(accepts, known, ins, input, id);
    if input.Got? && input.m.Publish? {
      TakesLast(accepts, known, ins, input.m, w);
    } else if Takes(accepts, known, ins + [input], |ins|) {
      TakesRange(accepts, known, ins + [input], |ins|);
    }
  }

  lemma LastIs(accepts: Accepts, known: set<nat>, ins: seq<Input>, w: World, id: nat)
    requires Exact(accepts, known, ins, w) && id != 0
    ensures w.cl.last == id <==> Remembers(accepts, known, ins, id)
  {
  }

  lemma HearReports(accepts: Accepts, known: set<nat>, ins: seq<Input>, input: Input, w: World)
    requires Exact(accepts, known, ins, w)
    ensures Hear(accepts, w, input).reports == HandsOver(accepts, known, ins + [input])
    ensures Hear(accepts, w, input).csent == Replies(accepts, known, ins + [input])
  {
    hide Knows, Takes, Remembers;
    assert (ins + [input])[..|ins|] == ins;
    if input.Got? && input.m.Publish? {
      TakesLast(accepts, known, ins, input.m, w);
    } else if Takes(accepts, known, ins + [input], |ins|) {
      TakesRange(accepts, known, ins + [input], |ins|);
    }
  }

  lemma HearExact(accepts: Accepts, known: set<nat>, ins: seq<Input>, input: Input, w: World)
    requires Exact(accepts, known, ins, w)
    ensures Exact(accepts, known, ins + [input], Hear(accepts, w, input))
  {
    hide Hear, Knows, Remembers, HandsOver, Replies;
    HearKnows(accepts, known, ins, input, w);
    HearReports(accepts, known, ins, input, w);
    forall id | id != 0
      ensures Hear(accepts, w, input).cl.last == id <==> Remembers(accepts, known, ins + [input], id)
    {
      HearRemembers(accepts, known, ins, input, w, id);
    }
  }

  lemma NothingHeard(accepts: Accepts, known: set<nat>, w: World)
    requires w.cl == Client(0, known) && w.csent == [] && w.reports == []
    ensures Exact(accepts, known, [], w)
  {
  }

  /** After every history the client knows, remembers, has handed over and has answered what the history says. */
  lemma {:induction false} ReceptionExact(accepts: Accepts, known: set<nat>, ins: seq<Input>)
    ensures Exact(accepts, known, ins, After(accepts, known, ins))
  {
    hide Exact, Hear;
    if ins == [] {
      NothingHeard(accepts, known, After(accepts, known, ins));
    } else {
      var n := |ins| - 1;
      ReceptionExact(accepts, known, ins[..n]);
      HearExact(accepts, known, ins[..n], ins[n], After(accepts, known, ins[..n]));
      assert ins[..n] + [ins[n]] == ins;
    }
  }

  /* Whole runs */

  /** What the client hears in a run. */
  function Inputs(cfg: Config, accepts: Accepts, y: System, mvs: seq<Move>): seq<Input>
    decreases |mvs|
  {
    if mvs == [] then []
    else
      (match mvs[0]
       case ClientReads => if y.w.gRead < |y.run.snd.sent| then [Got(y.run.snd.sent[y.w.gRead])] else []
       case Learn(topicId) => [Learns(topicId)]
       case Forget(topicId) => [Forgets(topicId)]
       case CleanConnect => [StartsClean]
       case _ => [])
      + Inputs(cfg, accepts, Next(cfg, accepts, y, mvs[0]), mvs[1..])
  }

  /** How far the client has read does not matter to it. */
  lemma HearAnywhere(accepts: Accepts, w: World, input: Input, read: nat)
    ensures Hear(accepts, w.(gRead := read), input) == Hear(accepts, w, input).(gRead := read)
  {
  }

  lemma ExactAnywhere(accepts: Accepts, known: set<nat>, ins: seq<Input>, w: World, read: nat)
    requires Exact(accepts, known, ins, w)
    ensures Exact(accepts, known, ins, w.(gRead := read))
  {
  }

  /** In every run the reports and answers of the client are those of what it heard: every QoS 0 and every QoS 1 PUBLISH
      it takes is handed over each time it is read. */
  lemma {:induction false} RunExact(cfg: Config, accepts: Accepts, known: set<nat>, y: System, ins: seq<Input>,
                                    mvs: seq<Move>)
    requires Exact(accepts, known, ins, y.w)
    ensures Exact(accepts, known, ins + Inputs(cfg, accepts, y, mvs), Play(cfg, accepts, y, mvs).w)
    decreases |mvs|
  {
    hide Exact, OnMessage, Step;
    if mvs == [] {
      assert ins + [] == ins;
    } else {
      var y' := Next(cfg, accepts, y, mvs[0]);
      var rest := Inputs(cfg, accepts, y', mvs[1..]);
      match mvs[0] {
        case ClientReads =>
          if y.w.gRead < |y.run.snd.sent| {
            var m := y.run.snd.sent[y.w.gRead];
            ExactAnywhere(accepts, known, ins, y.w, y.w.gRead + 1);
            HearExact(accepts, known, ins, Got(m), Skip(y.w));
            RunExact(cfg, accepts, known, y', ins + [Got(m)], mvs[1..]);
            assert ins + [Got(m)] + rest == ins + ([Got(m)] + rest);
          } else {
            RunExact(cfg, accepts, known, y', ins, mvs[1..]);
            assert [] + rest == rest;
          }
        case Learn(topicId) => RunOne(cfg, accepts, known, y, ins, Learns(topicId), mvs);
        case Forget(topicId) => RunOne(cfg, accepts, known, y, ins, Forgets(topicId), mvs);
        case CleanConnect => RunOne(cfg, accepts, known, y, ins, StartsClean, mvs);
        case _ =>
          ExactAnywhere(accepts, known, ins, y.w, y'.w.gRead);
          RunExact(cfg, accepts, known, y', ins, mvs[1..]);
          assert [] + rest == rest;
      }
    }
  }

  lemma {:induction false} RunOne(cfg: Config, accepts: Accepts, known: set<nat>, y: System, ins: seq<Input>,
                                  input: Input, mvs: seq<Move>)
    requires mvs != [] && Exact(accepts, known, ins, y.w) && !input.Got?
    requires mvs[0] == match input
                       case Learns(topicId) => Learn(topicId)
                       case Forgets(topicId) => Forget(topicId)
                       case StartsClean => CleanConnect
    ensures Exact(accepts, known, ins + Inputs(cfg, accepts, y, mvs), Play(cfg, accepts, y, mvs).w)
    decreases |mvs|, 0
  {
    hide Exact, OnMessage, Step;
    var y' := Next(cfg, accepts, y, mvs[0]);
    HearExact(accepts, known, ins, input, y.w);
    RunExact(cfg, accepts, known, y', ins + [input], mvs[1..]);
    var rest := Inputs(cfg, accepts, y', mvs[1..]);
    assert ins + [input] + rest == ins + ([input] + rest);
  }

  /** In every run from the start. */
  lemma RunReception(cfg: Config, accepts: Accepts, known: set<nat>, mvs: seq<Move>)
    ensures Exact(accepts, known, Inputs(cfg, accepts, Begin(known), mvs), Play(cfg, accepts, Begin(known), mvs).w)
  {
    hide Exact, Play, Inputs;
    NothingHeard(accepts, known, Begin(known).w);
    RunExact(cfg, accepts, known, Begin(known), [], mvs);
    assert [] + Inputs(cfg, accepts, Begin(known), mvs) == Inputs(cfg, accepts, Begin(known), mvs);
  }

  /** How often the client has taken a PUBLISH of this publication. */
  ghost function TimesTaken(accepts: Accepts, known: set<nat>, ins: seq<Input>, p: Pub): nat {
    if ins == [] then 0
    else
      var n := |ins| - 1;
      TimesTaken(accepts, known, ins[..n], p) +
      if Takes(accepts, known, ins, n) && ins[n].m.pub == p then 1 else 0
  }

  /** A QoS 0 or QoS 1 publication is handed over each time a PUBLISH of it is read under a topic id the client knows,
      and at no other time. */
  lemma {:induction false} PlainDeliveries(accepts: Accepts, known: set<nat>, ins: seq<Input>, p: Pub)
    requires p.qos != ExactlyOnce
    ensures Deliveries(HandsOver(accepts, known, ins), p) == TimesTaken(accepts, known, ins, p)
  {
    hide Takes, Remembers;
    if ins != [] {
      var n := |ins| - 1;
      PlainDeliveries(accepts, known, ins[..n], p);
      var before, after := HandsOver(accepts, known, ins[..n]), HandsOver(accepts, known, ins);
      if Takes(accepts, known, ins, n) {
        TakesRange(accepts, known, ins, n);
      }
      if after != before {
        assert after[..|after| - 1] == before;
      }
    }
  }

  /** The receiving side of the client. `heard` is its history, `read` counts the messages taken from the link; `s` is
      any sender whose next message is the one handled, and the joint invariant with it stays. */
  class Receiver {
    const accepts: Accepts
    var lastRecvMsgId: nat
    var known: set<nat>
    var sent: seq<ToGateway>
    var reports: seq<Report>
    ghost const atStart: set<nat>
    ghost var heard: seq<Input>
    ghost var read: nat

    ghost function View(): World
      reads this
    {
      World(read, Client(lastRecvMsgId, known), sent, reports)
    }

    /** The object is what its history says. */
    ghost predicate Valid()
      reads this
    {
      Exact(accepts, atStart, heard, View())
    }

    /** One input is heard: what the object is then to be, it is by the history too. */
    ghost method Note(input: Input)
      modifies `heard, `read
      ensures heard == old(heard) + [input] && read == old(read) + if input.Got? then 1 else 0
      ensures old(Valid()) ==> Exact(accepts, atStart, heard, Hear(accepts, View(), input))
    {
      hide Exact, Hear;
      if Exact(accepts, atStart, heard, View()) {
        HearExact(accepts, atStart, heard, input, View());
        HearAnywhere(accepts, View(), input, read + 1);
        ExactAnywhere(accepts, atStart, heard + [input], Hear(accepts, View(), input), read + 1);
      }
      heard := heard + [input];
      read := read + if input.Got? then 1 else 0;
    }

    /** A message is read that is as good as lost. */
    ghost method Passes()
      modifies `read
      ensures read == old(read) + 1 && (old(Valid()) ==> Valid())
    {
      hide Exact;
      if Exact(accepts, atStart, heard, View()) {
        ExactAnywhere(accepts, atStart, heard, View(), read + 1);
      }
      read := read + 1;
    }

    /** `m` is what `s` has on the link, and the joint invariant holds. */
    ghost predicate Handles(s: Sender, m: ToClient)
      reads this
    {
      Inv(s, View()) && read < |s.sent| && s.sent[read] == m
    }

    constructor (accepts: Accepts, known: set<nat>)
      ensures this.accepts == accepts && View() == World(0, Client(0, known), [], [])
      ensures Valid() && atStart == known && heard == []
    {
      this.accepts, this.known, atStart := accepts, known, known;
      lastRecvMsgId, sent, reports, heard, read := 0, [], [], [], 0;
    }

    /** `w` before the REGISTER `m` is taken: an id that leaves the full table makes room for it. */
    ghost function Evicted(w: World, m: ToClient, evicted: Option<nat>): World
      requires m.Register?
    {
      if evicted.Some? && accepts(m.pub.topic) && ValidTopicId(m.topicId) then Forgotten(w, evicted.value) else w
    }

    lemma RegisterKeeps(m: ToClient, evicted: Option<nat>, s: Sender)
      requires m.Register? && Handles(s, m) && (evicted.Some? ==> MayForget(s, View(), evicted.value))
      ensures Inv(s, OnRegister(accepts, Skip(Evicted(View(), m, evicted)), m))
    {
      hide Inv, MayForget;
      if evicted.Some? {
        ForgottenInv(s, View(), evicted.value);
      }
      DeliverRegister(accepts, s, Evicted(View(), m, evicted));
    }

    /** `evicted` is the id that a full table gives up for the new one, if the client then knows it no more. */
    method HandleRegister(m: ToClient, evicted: Option<nat>, ghost s: Sender)
      requires m.Register?
      modifies this
      ensures View() == OnRegister(accepts, Skip(Evicted(old(View()), m, evicted)), m)
      ensures old(Handles(s, m)) && (evicted.Some? ==> old(MayForget(s, View(), evicted.value))) ==> Inv(s, View())
      ensures old(Valid()) ==> Valid()
      ensures heard == old(heard) + (if evicted.Some? && accepts(m.pub.topic) && ValidTopicId(m.topicId)
                                     then [Forgets(evicted.value)] else []) + [Got(m)]
    {
      hide Inv, MayForget, Exact;
      if Handles(s, m) && (evicted.Some? ==> MayForget(s, View(), evicted.value)) {
        RegisterKeeps(m, evicted, s);
      }
      if evicted.Some? && accepts(m.pub.topic) && ValidTopicId(m.topicId) {
        Note(Forgets(evicted.value));
        known := known - {evicted.value};
      }
      Note(Got(m));
      var rc := Accepted;
      if !accepts(m.pub.topic) {
        rc := NotSupported;
      } else if !ValidTopicId(m.topicId) {
        rc := InvalidTopicId;
      } else {
        known := known + {m.topicId};
      }
      sent := sent + [RegackTo(m.topicId, m.msgId, rc)];
    }

    /** `subscribed` tells whether the topic passes the check against the subscribed filters; a PUBLISH that fails it is
        as good as lost. */
    method HandlePublish(m: ToClient, subscribed: bool, ghost s: Sender)
      requires m.Publish?
      modifies this
      ensures View() == if subscribed || (m.kind == Normal && m.topicId !in old(known))
                        then OnPublish(Skip(old(View())), m) else Skip(old(View()))
      ensures old(Handles(s, m)) ==> Inv(s, View())
      ensures old(Valid()) ==> Valid()
      ensures heard == old(heard) + if subscribed || (m.kind == Normal && m.topicId !in old(known)) then [Got(m)]
                                    else []
    {
      hide Inv, Exact;
      if Handles(s, m) {
        DeliverPublish(s, View());
        LoseInv(s, View());
      }
      if subscribed || (m.kind == Normal && m.topicId !in known) {
        Note(Got(m));
      } else {
        Passes();
      }
      if m.kind == Normal && m.topicId !in known {
        sent := sent + [PubackTo(m.topicId, m.msgId, InvalidTopicId)];
        return;
      }
      if !subscribed {
        return;
      }
      if m.pub.qos == AtMostOnce {
        reports := reports + [Report(m.msgId, m.pub)];
        return;
      }
      if m.pub.qos == AtLeastOnce {
        lastRecvMsgId := 0;
        sent := sent + [PubackTo(m.topicId, m.msgId, Accepted)];
        reports := reports + [Report(m.msgId, m.pub)];
        return;
      }
      if lastRecvMsgId != 0 && lastRecvMsgId == m.msgId {
        if !m.dup {
          return;
        }
        sent := sent + [PubrecTo(m.msgId)];
        return;
      }
      lastRecvMsgId := m.msgId;
      sent := sent + [PubrecTo(m.msgId)];
      reports := reports + [Report(m.msgId, m.pub)];
    }

    method HandlePubrel(m: ToClient, ghost s: Sender)
      requires m.Pubrel?
      modifies this
      ensures View() == OnPubrel(Skip(old(View())), m)
      ensures old(Handles(s, m)) ==> Inv(s, View())
      ensures heard == old(heard) + [Got(m)] && (old(Valid()) ==> Valid())
    {
      hide Inv, Exact;
      if Handles(s, m) {
        DeliverPubrel(s, View());
      }
      Note(Got(m));
      if lastRecvMsgId == m.msgId {
        lastRecvMsgId := 0;
      }
      sent := sent + [PubcompTo(m.msgId)];
    }

    /** A topic id that comes or goes by another way: with SUBACK, or dropped from a full table or on UNSUBSCRIBE. */
    method ChangeTopic(topicId: nat, comes: bool, ghost s: Sender)
      modifies this
      ensures View() == if comes then Learned(old(View()), topicId) else Forgotten(old(View()), topicId)
      ensures old(Inv(s, View())) && comes && old(MayLearn(s, View(), topicId)) ==> Inv(s, View())
      ensures old(Inv(s, View())) && !comes && old(MayForget(s, View(), topicId)) ==> Inv(s, View())
      ensures heard == old(heard) + [if comes then Learns(topicId) else Forgets(topicId)] && (old(Valid()) ==> Valid())
    {
      hide Inv, MayLearn, MayForget, Exact;
      if Inv(s, View()) {
        if comes && MayLearn(s, View(), topicId) {
          LearnedInv(s, View(), topicId);
        }
        if !comes && MayForget(s, View(), topicId) {
          ForgottenInv(s, View(), topicId);
        }
      }
      Note(if comes then Learns(topicId) else Forgets(topicId));
      known := if comes then known + {topicId} else known - {topicId};
    }

    /** A CONNECT with the clean flag resets what the client keeps for the session. */
    method StartClean(ghost s: Sender)
      modifies this
      ensures View() == Cleaned(old(View()))
      ensures old(Inv(s, View())) && old(MayClean(s, View())) ==> Inv(s, View())
      ensures heard == old(heard) + [StartsClean] && (old(Valid()) ==> Valid())
    {
      hide Inv, MayClean, Exact;
      if Inv(s, View()) && MayClean(s, View()) {
        CleanedInv(s, View());
      }
      Note(StartsClean);
      lastRecvMsgId, known := 0, {};
    }
  }
}
