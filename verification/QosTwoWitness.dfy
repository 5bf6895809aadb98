/** Runs that show why the conditions of `QosTwoWire.ExactlyOnceDelivery` are there. In each of them one condition is
    broken once: an id is taken while the client remembers it or while an acknowledgement that carries it is unread, a
    topic id is learned while a PUBLISH rejected for it can come again, a topic id is forgotten or the client starts
    clean while a PUBLISH it accepted can. */
module QosTwoWitness {
  import opened Protocol
  import opened PubRecv
  import opened PubSend
  import opened PubSendRuns
  import opened QosTwo

  lemma {:induction false} PlayConcat(cfg: Config, accepts: Accepts, y: System, a: seq<Move>, b: seq<Move>)
    ensures Play(cfg, accepts, y, a + b) == Play(cfg, accepts, Play(cfg, accepts, y, a), b)
    decreases |a|
  {
    hide Next;
    if a == [] {
      assert a + b == b;
    } else {
      assert (a + b)[1..] == a[1..] + b;
      PlayConcat(cfg, accepts, Next(cfg, accepts, y, a[0]), a[1..], b);
    }
  }

  lemma PlayOne(cfg: Config, accepts: Accepts, y: System, mv: Move)
    ensures Play(cfg, accepts, y, [mv]) == Next(cfg, accepts, y, mv)
  {
    hide Next;
  }

  /* A publication under a remembered id */

  /** The current QoS 2 publication has been sent, has an attempt left, and its id is the one the client remembers; both
      links are empty. */
  ghost predicate Shadowed(cfg: Config, y: System) {
    var s := y.run.snd;
    && s.curr.Some? && s.curr.value.qos == ExactlyOnce && !s.fl.acked && !NeedsRegister(s.fl) && s.armed
    && 1 <= s.fl.attempt < cfg.retryCount && s.fl.msgId == y.w.cl.last != 0
    && (s.fl.info.kind == Normal ==> s.fl.info.topicId in y.w.cl.known)
    && y.w.gRead == |s.sent| && y.cRead == |y.w.csent|
  }

  function Handshake(): seq<Move> {
    [AtGateway(Tick), ClientReads, GatewayReads, ClientReads, GatewayReads]
  }

  lemma Retransmit(cfg: Config, s: Sender)
    requires cfg.narrow && s.curr.Some? && s.curr.value.qos != AtMostOnce && !s.fl.acked && !NeedsRegister(s.fl)
    requires 1 <= s.fl.attempt < cfg.retryCount && s.fl.msgId != 0
    ensures OnTick(cfg, s) ==
            s.(fl := s.fl.(attempt := s.fl.attempt + 1), armed := true,
               sent := s.sent + [Publish(s.fl.info.topicId, s.fl.info.kind, s.fl.msgId, true, s.curr.value)])
  {
    hide Check;
  }

  lemma TickMove(cfg: Config, accepts: Accepts, y: System)
    requires y.run.snd.armed
    ensures Next(cfg, accepts, y, AtGateway(Tick)) == y.(run := y.run.(snd := OnTick(cfg, y.run.snd)))
  {
    hide OnTick;
  }

  lemma ReadMove(cfg: Config, accepts: Accepts, y: System)
    requires y.w.gRead < |y.run.snd.sent|
    ensures Next(cfg, accepts, y, ClientReads) == y.(w := OnMessage(accepts, Skip(y.w), y.run.snd.sent[y.w.gRead]))
  {
    hide OnMessage;
  }

  lemma AckMove(cfg: Config, accepts: Accepts, y: System)
    requires y.cRead < |y.w.csent|
    ensures var a := y.w.csent[y.cRead];
            Next(cfg, accepts, y, GatewayReads) ==
            y.(run := y.run.(snd := OnAck(cfg, y.run.snd, a)), cRead := y.cRead + 1,
               completed := y.completed + Completes(y.run.snd, a),
               confirmed := y.confirmed + Confirms(y.run.snd, a))
  {
    hide OnRegack, OnPuback, OnPubrec, OnPubcomp;
  }

  /** The client answers a repeated PUBLISH of the id it remembers and hands nothing over. */
  lemma AnswersRepeat(accepts: Accepts, w: World, m: ToClient)
    requires m.Publish? && m.pub.qos == ExactlyOnce && m.dup && w.cl.last == m.msgId != 0
    requires m.kind == Normal ==> m.topicId in w.cl.known
    ensures OnMessage(accepts, w, m) == w.(csent := w.csent + [PubrecTo(m.msgId)])
  {
  }

  /** From every such state the handshake completes the publication without handing it to the application. */
  lemma ShadowedIsLost(cfg: Config, accepts: Accepts, y: System)
    requires cfg.narrow && Shadowed(cfg, y)
    ensures var z := Play(cfg, accepts, y, Handshake());
            z.completed == y.completed + [y.run.snd.curr.value] && z.w.reports == y.w.reports
  {
    hide OnTick, Check, Next, Play, Handshake, OnPubcomp;
    var s, k := y.run.snd, y.run.snd.fl.msgId;
    var m := Publish(s.fl.info.topicId, s.fl.info.kind, k, true, s.curr.value);
    Retransmit(cfg, s);
    TickMove(cfg, accepts, y);
    var y1 := Next(cfg, accepts, y, AtGateway(Tick));
    assert y1.run.snd.sent[y1.w.gRead] == m;
    ReadMove(cfg, accepts, y1);
    AnswersRepeat(accepts, Skip(y1.w), m);
    var y2 := Next(cfg, accepts, y1, ClientReads);
    AckMove(cfg, accepts, y2);
    var y3 := Next(cfg, accepts, y2, GatewayReads);
    assert y3.run.snd.sent[y3.w.gRead] == Pubrel(k);
    ReadMove(cfg, accepts, y3);
    var y4 := Next(cfg, accepts, y3, ClientReads);
    assert y4.w.csent[y4.cRead] == PubcompTo(k);
    AckMove(cfg, accepts, y4);
    FivePlays(cfg, accepts, y);
  }

  lemma FivePlays(cfg: Config, accepts: Accepts, y: System)
    ensures var y1 := Next(cfg, accepts, y, AtGateway(Tick));
            var y2 := Next(cfg, accepts, y1, ClientReads);
            var y3 := Next(cfg, accepts, y2, GatewayReads);
            var y4 := Next(cfg, accepts, y3, ClientReads);
            Play(cfg, accepts, y, Handshake()) == Next(cfg, accepts, y4, GatewayReads)
  {
    hide Next, Play;
    var y1 := Next(cfg, accepts, y, AtGateway(Tick));
    var y2 := Next(cfg, accepts, y1, ClientReads);
    var y3 := Next(cfg, accepts, y2, GatewayReads);
    var y4 := Next(cfg, accepts, y3, ClientReads);
    PlayFirst(cfg, accepts, y, Handshake());
    PlayFirst(cfg, accepts, y1, [ClientReads, GatewayReads, ClientReads, GatewayReads]);
    PlayFirst(cfg, accepts, y2, [GatewayReads, ClientReads, GatewayReads]);
    PlayFirst(cfg, accepts, y3, [ClientReads, GatewayReads]);
    PlayOne(cfg, accepts, y4, GatewayReads);
  }

  lemma PlayFirst(cfg: Config, accepts: Accepts, y: System, mvs: seq<Move>)
    requires mvs != []
    ensures Play(cfg, accepts, y, mvs) == Play(cfg, accepts, Next(cfg, accepts, y, mvs[0]), mvs[1..])
  {
    hide Next;
  }

  /* A run that comes to such a state */

  /** A gateway whose topics are predefined, all under id 1. */
  function OneTopic(): Config {
    Config(2, (n: nat, topic: string) => TopicInfo(1, Predefined, false), true)
  }

  /** A gateway whose topic is registered when the run begins; after its registration was discarded, the topic is
      registered anew (see `RegMgr.DiscardedComesAnew`). */
  function Registering(): Config {
    Config(2, (n: nat, topic: string) => TopicInfo(1, Normal, n != 0), true)
  }

  function Enqueues(qos: Qos): Move {
    AtGateway(Enqueue("t", [], qos, false, false, 10))
  }

  /** Nothing is under way at the gateway. */
  ghost predicate Parked(y: System) {
    var s := y.run.snd;
    && s.curr.None? && !s.ping && s.ses == Session([], Connected, false) && y.w.gRead == |s.sent|
    && y.completed == [] && y.confirmed == []
    && forall x :: 0 <= x < |y.w.reports| ==> y.w.reports[x].pub.serial < y.run.enqueued
  }

  /** The client's side is as it was. */
  predicate ClientKept(y: System, z: System) {
    z.w == y.w.(gRead := z.w.gRead) && z.cRead == y.cRead
  }

  /** Starting the one queued publication of an idle operation. */
  lemma StartsWith(cfg: Config, kind: TopicIdKind, s: Sender, p: Pub)
    requires cfg.narrow && cfg.retryCount == 2 && cfg.resolve(s.nextMsgId, p.topic) == TopicInfo(1, kind, false)
    requires s.curr.None? && !s.ping && s.ses == Session([p], Connected, false)
    requires p.qos == AtMostOnce || Low16(s.nextMsgId + 1) != 0
    ensures var t := Check(cfg, s);
            && t.nextMsgId == s.nextMsgId + 1 && t.ses == Session([], Connected, false) && !t.ping
            && (p.qos == AtMostOnce ==> t.curr.None? && t.sent == s.sent + [Publish(1, kind, 0, p.dup, p)])
            && (p.qos != AtMostOnce ==>
                  && t.fl == Flight(1, TopicInfo(1, kind, false), Low16(t.nextMsgId), 0, false, false)
                  && t.curr == Some(p) && t.armed
                  && t.sent == s.sent + [Publish(1, kind, Low16(t.nextMsgId), p.dup, p)])
  {
    hide Low16;
    var u := Load(cfg, Pop(s.(armed := false)));
    assert u.fl == Flight(0, TopicInfo(1, kind, false), Low16(s.nextMsgId + 1), 0, false, false);
    var t := Attempt(cfg, u);
    assert Start(cfg, s.(armed := false)) == t && t.ses.queue == [];
    assert Drain(cfg, t) == t;
  }

  lemma StartsOne(s: Sender, p: Pub)
    requires s.curr.None? && !s.ping && s.ses == Session([p], Connected, false)
    requires p.qos == AtMostOnce || Low16(s.nextMsgId + 1) != 0
    ensures var t := Check(OneTopic(), s);
            && t.nextMsgId == s.nextMsgId + 1 && t.ses == Session([], Connected, false) && !t.ping
            && (p.qos == AtMostOnce ==> t.curr.None? && t.sent == s.sent + [Publish(1, Predefined, 0, p.dup, p)])
            && (p.qos != AtMostOnce ==>
                  && t.fl == Flight(1, TopicInfo(1, Predefined, false), Low16(t.nextMsgId), 0, false, false)
                  && t.curr == Some(p) && t.armed
                  && t.sent == s.sent + [Publish(1, Predefined, Low16(t.nextMsgId), p.dup, p)])
  {
    hide Low16, Check;
    StartsWith(OneTopic(), Predefined, s, p);
  }

  lemma PushEmpty(p: Pub)
    ensures Overflow([], 10) == 0 && Pushed([], p, 10) == [p]
  {
  }

  lemma EnqueueOne(cfg: Config, accepts: Accepts, y: System, qos: Qos)
    requires y.run.snd.ses.queue == []
    ensures var y' := Next(cfg, accepts, y, Enqueues(qos));
            && y' == y.(run := y'.run) && y'.run.enqueued == y.run.enqueued + 1
            && var p := Pub(y.run.enqueued, "t", [], qos, false, false);
            y'.run.snd == y.run.snd.(ses := y.run.snd.ses.(queue := [p]))
  {
    hide Answer, Overflow, Pushed;
    PushEmpty(Pub(y.run.enqueued, "t", [], qos, false, false));
  }

  function BurnMoves(): seq<Move> {
    [Enqueues(AtMostOnce), AtGateway(OtherMessage), ClientLoses]
  }

  /** A QoS 0 publication uses up a number and leaves everything else parked. */
  lemma Burn(accepts: Accepts, y: System)
    requires Parked(y)
    ensures var z := Play(OneTopic(), accepts, y, BurnMoves());
            Parked(z) && z.run.snd.nextMsgId == y.run.snd.nextMsgId + 1 && ClientKept(y, z)
  {
    hide Check, OneTopic;
    var cfg := OneTopic();
    var y1 := Next(cfg, accepts, y, Enqueues(AtMostOnce));
    EnqueueOne(cfg, accepts, y, AtMostOnce);
    var y2 := Next(cfg, accepts, y1, AtGateway(OtherMessage));
    StartsOne(y1.run.snd, y1.run.snd.ses.queue[0]);
    var y3 := Next(cfg, accepts, y2, ClientLoses);
    ThreePlays(cfg, accepts, y, Enqueues(AtMostOnce), AtGateway(OtherMessage), ClientLoses);
  }

  lemma ThreePlays(cfg: Config, accepts: Accepts, y: System, a: Move, b: Move, c: Move)
    ensures var y1 := Next(cfg, accepts, y, a);
            var y2 := Next(cfg, accepts, y1, b);
            Play(cfg, accepts, y, [a, b, c]) == Next(cfg, accepts, y2, c)
  {
    hide Next, Play;
    var y1 := Next(cfg, accepts, y, a);
    PlayFirst(cfg, accepts, y, [a, b, c]);
    PlayFirst(cfg, accepts, y1, [b, c]);
    PlayOne(cfg, accepts, Next(cfg, accepts, y1, b), c);
  }

  function Burns(n: nat): seq<Move> {
    if n == 0 then [] else BurnMoves() + Burns(n - 1)
  }

  lemma {:induction false} BurnMany(accepts: Accepts, y: System, n: nat)
    requires Parked(y)
    ensures var z := Play(OneTopic(), accepts, y, Burns(n));
            Parked(z) && z.run.snd.nextMsgId == y.run.snd.nextMsgId + n && ClientKept(y, z)
    decreases n
  {
    hide Next, Parked, OneTopic;
    if n != 0 {
      Burn(accepts, y);
      BurnMany(accepts, Play(OneTopic(), accepts, y, BurnMoves()), n - 1);
      PlayConcat(OneTopic(), accepts, y, BurnMoves(), Burns(n - 1));
    }
  }

  function ShadowMoves(): seq<Move> {
    [Enqueues(ExactlyOnce), AtGateway(OtherMessage), ClientReads]
  }

  /** The next QoS 2 publication gets the id 1 again. */
  lemma Shadow(accepts: Accepts, y: System)
    requires Parked(y) && y.run.snd.nextMsgId == ID_SPACE && y.w.cl.last == 1 && y.cRead == |y.w.csent|
    ensures var z := Play(OneTopic(), accepts, y, ShadowMoves());
            && Shadowed(OneTopic(), z) && z.completed == []
            && z.run.snd.curr.value.serial == y.run.enqueued && z.w.reports == y.w.reports
  {
    hide Check, Next, Parked, Shadowed, OneTopic, Low16;
    var cfg := OneTopic();
    var y1 := Next(cfg, accepts, y, Enqueues(ExactlyOnce));
    EnqueueParked(cfg, accepts, y, ExactlyOnce);
    var y2 := Next(cfg, accepts, y1, AtGateway(OtherMessage));
    OtherMove(cfg, accepts, y1);
    LowAround(1);
    StartsOne(y1.run.snd, y1.run.snd.ses.queue[0]);
    ReadShadow(accepts, y2);
    ThreePlays(cfg, accepts, y, Enqueues(ExactlyOnce), AtGateway(OtherMessage), ClientReads);
  }

  lemma LowAround(n: nat)
    requires n < ID_SPACE
    ensures Low16(n) == n && Low16(ID_SPACE + n) == n
  {
  }

  lemma OtherMove(cfg: Config, accepts: Accepts, y: System)
    ensures Next(cfg, accepts, y, AtGateway(OtherMessage)) == y.(run := y.run.(snd := Check(cfg, y.run.snd)))
  {
    hide Check;
  }

  lemma EnqueueParked(cfg: Config, accepts: Accepts, y: System, qos: Qos)
    requires Parked(y)
    ensures var y' := Next(cfg, accepts, y, Enqueues(qos));
            var p := Pub(y.run.enqueued, "t", [], qos, false, false);
            && y' == y.(run := y'.run) && y'.run.snd.curr.None? && !y'.run.snd.ping
            && y'.run.snd.ses == Session([p], Connected, false) && y'.run.snd.nextMsgId == y.run.snd.nextMsgId
            && y'.w.gRead == |y'.run.snd.sent| && y'.completed == [] && y'.confirmed == []
  {
    EnqueueOne(cfg, accepts, y, qos);
  }

  /** The client takes the new publication for the one it remembers. */
  lemma ReadShadow(accepts: Accepts, y: System)
    requires var s := y.run.snd;
             && s.curr.Some? && s.curr.value.qos == ExactlyOnce && !s.curr.value.dup && s.armed
             && s.fl == Flight(1, TopicInfo(1, Predefined, false), 1, 0, false, false) && y.w.cl.last == 1
             && |s.sent| == y.w.gRead + 1 && s.sent[y.w.gRead] == Publish(1, Predefined, 1, false, s.curr.value)
             && y.cRead == |y.w.csent|
    ensures var z := Next(OneTopic(), accepts, y, ClientReads);
            Shadowed(OneTopic(), z) && z == y.(w := y.w.(gRead := y.w.gRead + 1))
  {
  }

  /** The first publication has been received under id 1; its PUBREC is on the way. */
  ghost predicate Received(y: System) {
    var s := y.run.snd;
    && s.curr.Some? && s.curr.value.qos == ExactlyOnce && s.curr.value.serial == 0 && s.armed && !s.ping
    && s.fl == Flight(1, TopicInfo(1, Predefined, false), 1, 0, false, false) && s.nextMsgId == 1
    && s.ses == Session([], Connected, false) && y.run.enqueued == 1 && |s.sent| == y.w.gRead == 1
    && y.w.cl.last == 1 && y.w.csent == [PubrecTo(1)] && y.cRead == 0 && y.completed == [] && y.confirmed == []
    && y.w.reports == [Report(1, s.curr.value)]
  }

  lemma Receive(accepts: Accepts)
    ensures Received(Play(OneTopic(), accepts, Begin({}), ReceiveMoves()))
  {
    hide Check, Next, OneTopic, Low16, Received;
    var cfg := OneTopic();
    var y1 := Next(cfg, accepts, Begin({}), AtGateway(SetStatus(Connected)));
    ConnectMove(cfg, accepts, {});
    var y2 := Next(cfg, accepts, y1, Enqueues(ExactlyOnce));
    EnqueueOne(cfg, accepts, y1, ExactlyOnce);
    var y3 := Next(cfg, accepts, y2, AtGateway(OtherMessage));
    OtherMove(cfg, accepts, y2);
    LowAround(1);
    StartsOne(y2.run.snd, y2.run.snd.ses.queue[0]);
    ReadFirst(accepts, y3);
    PlayFirst(cfg, accepts, Begin({}), ReceiveMoves());
    ThreePlays(cfg, accepts, y1, Enqueues(ExactlyOnce), AtGateway(OtherMessage), ClientReads);
  }

  function ReceiveMoves(): seq<Move> {
    [AtGateway(SetStatus(Connected)), Enqueues(ExactlyOnce), AtGateway(OtherMessage), ClientReads]
  }

  lemma ConnectMove(cfg: Config, accepts: Accepts, known: set<nat>)
    ensures var y := Begin(known);
            Next(cfg, accepts, y, AtGateway(SetStatus(Connected))) ==
            y.(run := y.run.(snd := y.run.snd.(ses := Session([], Connected, false))))
  {
  }

  lemma ReadFirst(accepts: Accepts, y: System)
    requires var s := y.run.snd;
             && s.curr.Some? && s.curr.value.qos == ExactlyOnce && s.curr.value.serial == 0 && s.armed && !s.ping
             && s.fl == Flight(1, TopicInfo(1, Predefined, false), 1, 0, false, false) && s.nextMsgId == 1
             && s.ses == Session([], Connected, false) && y.run.enqueued == 1
             && s.sent == [Publish(1, Predefined, 1, s.curr.value.dup, s.curr.value)]
             && y.w == World(0, Client(0, {}), [], []) && y.cRead == 0 && y.completed == [] && y.confirmed == []
    ensures Received(Next(OneTopic(), accepts, y, ClientReads))
  {
  }

  function AbandonMoves(): seq<Move> {
    [GatewayLoses, AtGateway(Tick), ClientLoses, AtGateway(Tick)]
  }

  /** Its PUBREC is lost and, the retries used up, the gateway gives it up. */
  lemma Abandon(accepts: Accepts, y: System)
    requires Received(y)
    ensures var z := Play(OneTopic(), accepts, y, AbandonMoves());
            Parked(z) && z.run.snd.nextMsgId == 1 && z.w.cl.last == 1 && z.cRead == |z.w.csent|
  {
    hide Check, OnTick, Play;
    var cfg := OneTopic();
    var y1 := Next(cfg, accepts, y, GatewayLoses);
    var y2 := Next(cfg, accepts, y1, AtGateway(Tick));
    TickMove(cfg, accepts, y1);
    Retransmit(cfg, y1.run.snd);
    var y3 := Next(cfg, accepts, y2, ClientLoses);
    TickMove(cfg, accepts, y3);
    GiveUp(cfg, y3.run.snd);
    PlayFirst(cfg, accepts, y, AbandonMoves());
    ThreePlays(cfg, accepts, y1, AtGateway(Tick), ClientLoses, AtGateway(Tick));
  }

  lemma GiveUp(cfg: Config, s: Sender)
    requires s.curr.Some? && !s.fl.acked && cfg.retryCount <= s.fl.attempt && !s.ping
    requires s.ses == Session([], Connected, false)
    ensures OnTick(cfg, s) == Retire(s.(armed := false))
  {
  }

  /** The whole run: a publication is given up after it was received, 65535 QoS 0 publications move the id counter
      round, and the next QoS 2 publication gets the id of the first. */
  function ReuseRun(): seq<Move> {
    ReceiveMoves() + AbandonMoves() + Burns(ID_SPACE - 1)
    + ShadowMoves() + Handshake()
  }

  /** The gateway retires it on a PUBCOMP, and the application never gets it. */
  lemma ReusedIdIsLost(accepts: Accepts)
    ensures var z := Play(OneTopic(), accepts, Begin({}), ReuseRun());
            |z.completed| == 1 && z.completed[0].qos == ExactlyOnce && Deliveries(z.w.reports, z.completed[0]) == 0
  {
    hide Play, Parked, Shadowed, Received, OneTopic, ReceiveMoves, AbandonMoves, Handshake, Burns, Enqueues;
    var cfg, y0 := OneTopic(), Begin({});
    var shadow := ShadowMoves();
    var a := ReceiveMoves();
    var y1 := Play(cfg, accepts, y0, a);
    Receive(accepts);
    var y2 := Play(cfg, accepts, y1, AbandonMoves());
    Abandon(accepts, y1);
    PlayConcat(cfg, accepts, y0, a, AbandonMoves());
    var y3 := Play(cfg, accepts, y2, Burns(ID_SPACE - 1));
    BurnMany(accepts, y2, ID_SPACE - 1);
    PlayConcat(cfg, accepts, y0, a + AbandonMoves(), Burns(ID_SPACE - 1));
    var y4 := Play(cfg, accepts, y3, shadow);
    Shadow(accepts, y3);
    PlayConcat(cfg, accepts, y0, a + AbandonMoves() + Burns(ID_SPACE - 1), shadow);
    OneTopicNarrow();
    ShadowedIsLost(cfg, accepts, y4);
    PlayConcat(cfg, accepts, y0, a + AbandonMoves() + Burns(ID_SPACE - 1) + shadow, Handshake());
    ParkedReports(y3);
    ShadowedCurrent(cfg, y4);
    NeverDelivered(y4.w.reports, y4.run.snd.curr.value);
  }

  /* An acknowledgement that outlives its publication */

  function ReleaseMoves(): seq<Move> {
    [GatewayReads, ClientReads]
  }

  /** The PUBREC arrives, the PUBREL is answered, and the PUBCOMP stays on its way. */
  ghost predicate Answered(y: System, attempt: nat) {
    var s := y.run.snd;
    && s.curr.Some? && s.curr.value.serial == 0 && s.armed && !s.ping && s.fl.acked && s.fl.attempt == attempt
    && s.nextMsgId == 1 && s.fl.msgId == 1 && s.ses == Session([], Connected, false) && y.run.enqueued == 1
    && y.w.gRead == |s.sent| && y.w.csent == [PubrecTo(1), PubcompTo(1)] && y.cRead == 1 && y.completed == []
    && y.confirmed == [] && y.w.reports == [Report(1, s.curr.value)]
  }

  lemma Release(accepts: Accepts, y: System)
    requires Received(y)
    ensures Answered(Play(OneTopic(), accepts, y, ReleaseMoves()), 0)
  {
    hide Play;
    var cfg := OneTopic();
    var y1 := Next(cfg, accepts, y, GatewayReads);
    var y2 := Next(cfg, accepts, y1, ClientReads);
    PlayFirst(cfg, accepts, y, ReleaseMoves());
    PlayOne(cfg, accepts, y1, ClientReads);
  }

  function RelMoves(): seq<Move> {
    [AtGateway(Tick), ClientLoses]
  }

  lemma RelAgain(accepts: Accepts, y: System, attempt: nat)
    requires Answered(y, attempt) && attempt < 2
    ensures Answered(Play(OneTopic(), accepts, y, RelMoves()), attempt + 1)
  {
    hide Play;
    var cfg := OneTopic();
    var y1 := Next(cfg, accepts, y, AtGateway(Tick));
    TickMove(cfg, accepts, y);
    PlayFirst(cfg, accepts, y, RelMoves());
    PlayOne(cfg, accepts, y1, ClientLoses);
  }

  lemma RelGivenUp(accepts: Accepts, y: System)
    requires Answered(y, 2)
    ensures var z := Play(OneTopic(), accepts, y, [AtGateway(Tick)]);
            Parked(z) && z.run.snd.nextMsgId == 1 && ClientKept(y, z)
  {
    hide Play;
    var cfg := OneTopic();
    TickMove(cfg, accepts, y);
    PlayOne(cfg, accepts, y, AtGateway(Tick));
  }

  function StaleMoves(): seq<Move> {
    [Enqueues(ExactlyOnce), AtGateway(OtherMessage), GatewayReads]
  }

  /** The next QoS 2 publication gets the id 1 again, and the old PUBCOMP completes it. */
  lemma StaleCompletes(accepts: Accepts, y: System)
    requires Parked(y) && y.run.snd.nextMsgId == ID_SPACE && y.cRead < |y.w.csent| && y.w.csent[y.cRead] == PubcompTo(1)
    ensures var z := Play(OneTopic(), accepts, y, StaleMoves());
            && |z.completed| == 1 && z.completed[0].qos == ExactlyOnce && z.completed[0].serial == y.run.enqueued
            && z.w.reports == y.w.reports
  {
    hide Check, Next, Parked, OneTopic, Low16, Play;
    var cfg := OneTopic();
    var y1 := Next(cfg, accepts, y, Enqueues(ExactlyOnce));
    EnqueueParked(cfg, accepts, y, ExactlyOnce);
    var y2 := Next(cfg, accepts, y1, AtGateway(OtherMessage));
    OtherMove(cfg, accepts, y1);
    LowAround(1);
    StartsOne(y1.run.snd, y1.run.snd.ses.queue[0]);
    ReadStale(cfg, accepts, y2);
    ThreePlays(cfg, accepts, y, Enqueues(ExactlyOnce), AtGateway(OtherMessage), GatewayReads);
  }

  lemma ReadStale(cfg: Config, accepts: Accepts, y: System)
    requires y.cRead < |y.w.csent| && y.w.csent[y.cRead] == PubcompTo(1)
    requires y.run.snd.curr.Some? && y.run.snd.fl.msgId == 1 && y.completed == []
    ensures var z := Next(cfg, accepts, y, GatewayReads);
            z.completed == [y.run.snd.curr.value] && z.w == y.w
  {
    hide Step;
  }

  function StaleRun(): seq<Move> {
    ReceiveMoves() + ReleaseMoves() + RelMoves() + RelMoves() + [AtGateway(Tick)] + Burns(ID_SPACE - 1) + StaleMoves()
  }

  /** A publication that was only just sent is retired on the PUBCOMP of another. */
  lemma StaleAckCompletes(accepts: Accepts)
    ensures var z := Play(OneTopic(), accepts, Begin({}), StaleRun());
            |z.completed| == 1 && z.completed[0].qos == ExactlyOnce && Deliveries(z.w.reports, z.completed[0]) == 0
  {
    hide Play, Parked, Received, Answered, OneTopic, ReceiveMoves, ReleaseMoves, Burns, Enqueues;
    var cfg, y0 := OneTopic(), Begin({});
    var again, last, stale := RelMoves(), [AtGateway(Tick)], StaleMoves();
    var a := ReceiveMoves();
    var y1 := Play(cfg, accepts, y0, a);
    Receive(accepts);
    var y2 := Play(cfg, accepts, y1, ReleaseMoves());
    Release(accepts, y1);
    PlayConcat(cfg, accepts, y0, a, ReleaseMoves());
    var b := a + ReleaseMoves();
    var y3 := Play(cfg, accepts, y2, again);
    RelAgain(accepts, y2, 0);
    PlayConcat(cfg, accepts, y0, b, again);
    var y4 := Play(cfg, accepts, y3, again);
    RelAgain(accepts, y3, 1);
    PlayConcat(cfg, accepts, y0, b + again, again);
    var y5 := Play(cfg, accepts, y4, last);
    RelGivenUp(accepts, y4);
    PlayConcat(cfg, accepts, y0, b + again + again, last);
    var y6 := Play(cfg, accepts, y5, Burns(ID_SPACE - 1));
    BurnMany(accepts, y5, ID_SPACE - 1);
    PlayConcat(cfg, accepts, y0, b + again + again + last, Burns(ID_SPACE - 1));
    AnsweredAcks(y4, 2);
    StaleCompletes(accepts, y6);
    PlayConcat(cfg, accepts, y0, b + again + again + last + Burns(ID_SPACE - 1), stale);
    ParkedReports(y6);
    NeverDelivered(y6.w.reports, Play(cfg, accepts, y6, stale).completed[0]);
  }

  /* The same with QoS 1 */

  function TakeMoves(): seq<Move> {
    [AtGateway(SetStatus(Connected)), Enqueues(AtLeastOnce), AtGateway(OtherMessage), ClientReads]
  }

  /** A QoS 1 publication has been received under id 1; its PUBACK is on the way. */
  ghost predicate Taken(y: System) {
    var s, p := y.run.snd, Pub(0, "t", [], AtLeastOnce, false, false);
    && s.curr == Some(p) && s.armed && !s.ping && s.nextMsgId == 1
    && s.fl == Flight(1, TopicInfo(1, Predefined, false), 1, 0, false, false)
    && s.ses == Session([], Connected, false) && y.run.enqueued == 1 && y.w.gRead == |s.sent|
    && y.w.csent == [PubackTo(1, 1, Accepted)] && y.cRead == 0 && y.completed == [] && y.confirmed == []
    && y.w.reports == [Report(1, p)]
  }

  lemma Take(accepts: Accepts)
    ensures Taken(Play(OneTopic(), accepts, Begin({}), TakeMoves()))
  {
    hide Check, Next, OneTopic, Low16;
    var cfg := OneTopic();
    var y1 := Next(cfg, accepts, Begin({}), AtGateway(SetStatus(Connected)));
    ConnectMove(cfg, accepts, {});
    var y2 := Next(cfg, accepts, y1, Enqueues(AtLeastOnce));
    EnqueueOne(cfg, accepts, y1, AtLeastOnce);
    var y3 := Next(cfg, accepts, y2, AtGateway(OtherMessage));
    OtherMove(cfg, accepts, y2);
    LowAround(1);
    StartsOne(y2.run.snd, y2.run.snd.ses.queue[0]);
    assert y3.run.snd.sent[0] == Publish(1, Predefined, 1, false, y3.run.snd.curr.value);
    ReadMove(cfg, accepts, y3);
    PlayFirst(cfg, accepts, Begin({}), TakeMoves());
    ThreePlays(cfg, accepts, y1, Enqueues(AtLeastOnce), AtGateway(OtherMessage), ClientReads);
  }

  function UnheardMoves(): seq<Move> {
    [AtGateway(Tick), ClientLoses, AtGateway(Tick)]
  }

  /** The PUBACK does not come in time, and the gateway gives the publication up. */
  lemma Unheard(accepts: Accepts, y: System)
    requires Taken(y)
    ensures var z := Play(OneTopic(), accepts, y, UnheardMoves());
            Parked(z) && z.run.snd.nextMsgId == 1 && z.w.csent == [PubackTo(1, 1, Accepted)] && z.cRead == 0
  {
    hide Check, OnTick, Play;
    var cfg := OneTopic();
    TickMove(cfg, accepts, y);
    Retransmit(cfg, y.run.snd);
    var y1 := Next(cfg, accepts, y, AtGateway(Tick));
    var y2 := Next(cfg, accepts, y1, ClientLoses);
    TickMove(cfg, accepts, y2);
    GiveUp(cfg, y2.run.snd);
    ThreePlays(cfg, accepts, y, AtGateway(Tick), ClientLoses, AtGateway(Tick));
  }

  function LateMoves(): seq<Move> {
    [Enqueues(AtLeastOnce), AtGateway(OtherMessage), GatewayReads]
  }

  /** The next QoS 1 publication gets the id 1 again, and the old PUBACK confirms it. */
  lemma LateConfirms(accepts: Accepts, y: System)
    requires Parked(y) && y.run.snd.nextMsgId == ID_SPACE && y.w.csent == [PubackTo(1, 1, Accepted)] && y.cRead == 0
    ensures var z := Play(OneTopic(), accepts, y, LateMoves());
            && |z.confirmed| == 1 && z.confirmed[0].qos == AtLeastOnce && z.confirmed[0].serial == y.run.enqueued
            && z.w.reports == y.w.reports
  {
    hide Check, Next, Parked, OneTopic, Low16, Play, OnPuback;
    var cfg := OneTopic();
    var y1 := Next(cfg, accepts, y, Enqueues(AtLeastOnce));
    EnqueueParked(cfg, accepts, y, AtLeastOnce);
    var y2 := Next(cfg, accepts, y1, AtGateway(OtherMessage));
    OtherMove(cfg, accepts, y1);
    LowAround(1);
    StartsOne(y1.run.snd, y1.run.snd.ses.queue[0]);
    AckMove(cfg, accepts, y2);
    ThreePlays(cfg, accepts, y, Enqueues(AtLeastOnce), AtGateway(OtherMessage), GatewayReads);
  }

  function LateRun(): seq<Move> {
    TakeMoves() + UnheardMoves() + Burns(ID_SPACE - 1) + LateMoves()
  }

  /** A QoS 1 publication that was only just sent is retired on the PUBACK of another. */
  lemma StalePubackConfirms(accepts: Accepts)
    ensures var z := Play(OneTopic(), accepts, Begin({}), LateRun());
            |z.confirmed| == 1 && z.confirmed[0].qos == AtLeastOnce && Deliveries(z.w.reports, z.confirmed[0]) == 0
  {
    hide Play, Parked, Taken, OneTopic, TakeMoves, UnheardMoves, Burns, LateMoves;
    var cfg, y0 := OneTopic(), Begin({});
    var y1 := Play(cfg, accepts, y0, TakeMoves());
    Take(accepts);
    var y2 := Play(cfg, accepts, y1, UnheardMoves());
    Unheard(accepts, y1);
    PlayConcat(cfg, accepts, y0, TakeMoves(), UnheardMoves());
    var y3 := Play(cfg, accepts, y2, Burns(ID_SPACE - 1));
    BurnMany(accepts, y2, ID_SPACE - 1);
    PlayConcat(cfg, accepts, y0, TakeMoves() + UnheardMoves(), Burns(ID_SPACE - 1));
    LateConfirms(accepts, y3);
    PlayConcat(cfg, accepts, y0, TakeMoves() + UnheardMoves() + Burns(ID_SPACE - 1), LateMoves());
    ParkedReports(y3);
    NeverDelivered(y3.w.reports, Play(cfg, accepts, y3, LateMoves()).confirmed[0]);
  }

  lemma AnsweredAcks(y: System, attempt: nat)
    requires Answered(y, attempt)
    ensures y.w.csent == [PubrecTo(1), PubcompTo(1)] && y.cRead == 1
  {
  }

  lemma OneTopicNarrow()
    ensures OneTopic().narrow
  {
  }

  lemma ParkedReports(y: System)
    requires Parked(y)
    ensures forall x :: 0 <= x < |y.w.reports| ==> y.w.reports[x].pub.serial < y.run.enqueued
  {
  }

  lemma ShadowedCurrent(cfg: Config, y: System)
    requires Shadowed(cfg, y)
    ensures y.run.snd.curr.Some? && y.run.snd.curr.value.qos == ExactlyOnce
  {
  }

  lemma {:induction false} NeverDelivered(rs: seq<Report>, p: Pub)
    requires forall x :: 0 <= x < |rs| ==> rs[x].pub.serial < p.serial
    ensures Deliveries(rs, p) == 0
  {
    if rs != [] {
      NeverDelivered(rs[..|rs| - 1], p);
    }
  }

  /* Topic ids learned or forgotten at the wrong time */

  function Message(): Pub {
    Pub(0, "t", [], ExactlyOnce, false, false)
  }

  /** The publication is under way under id 1 and was sent `attempt` times. */
  ghost predicate Underway(y: System, attempt: nat) {
    var s := y.run.snd;
    && s.curr == Some(Message()) && s.armed && s.nextMsgId == 1
    && s.fl == Flight(attempt, TopicInfo(1, Normal, false), 1, 0, false, false) && y.w.gRead == |s.sent|
  }

  /** The publication was handed over once, and the rejection of a PUBLISH of it is the next that the gateway reads. */
  ghost predicate Rejecting(y: System) {
    && Underway(y, 2) && y.w.reports == [Report(1, Message())] && y.w.cl.last == 1
    && y.cRead < |y.w.csent| && y.w.csent[y.cRead] == PubackTo(1, 1, InvalidTopicId)
  }

  /** The client accepted the new registration; its REGACK is the last that it sent. */
  ghost predicate Reregistered(y: System) {
    var s := y.run.snd;
    && s.curr == Some(Message()) && s.nextMsgId == 3
    && s.fl == Flight(1, TopicInfo(1, Normal, true), 3, 0, false, false) && y.w.gRead == |s.sent|
    && y.w.reports == [Report(1, Message())] && y.w.cl.last == 1 && 1 in y.w.cl.known
    && y.cRead < |y.w.csent| && y.w.csent[|y.w.csent| - 1] == RegackTo(1, 3, Accepted)
  }

  /** A rejection makes the gateway register the topic again. */
  lemma Reload(s: Sender)
    requires s.curr == Some(Message()) && s.nextMsgId == 1
    requires s.fl == Flight(2, TopicInfo(1, Normal, false), 1, 0, false, false)
    ensures var t := OnPuback(Registering(), s, 1, 1, InvalidTopicId);
            && t == s.(armed := true, nextMsgId := 3, fl := t.fl, sent := s.sent + [Register(1, 3, Message())])
            && t.fl == Flight(1, TopicInfo(1, Normal, true), 3, 0, false, false)
  {
    hide Check;
    var u := Load(Registering(), s.(armed := false));
    assert u.fl == Flight(0, TopicInfo(1, Normal, true), 2, 0, false, false);
  }

  /** The REGACK makes it send the publication under the next id. */
  lemma Republish(s: Sender)
    requires s.curr == Some(Message()) && s.nextMsgId == 3
    requires s.fl == Flight(1, TopicInfo(1, Normal, true), 3, 0, false, false)
    ensures OnRegack(Registering(), s, 1, 3, Accepted).sent == s.sent + [Publish(1, Normal, 4, false, Message())]
  {
    hide Check;
    assert Registered(Registering(), s).fl == Flight(0, TopicInfo(1, Normal, true), 4, 1, true, false);
  }

  lemma TwoPlays(cfg: Config, accepts: Accepts, y: System, a: Move, b: Move)
    ensures Play(cfg, accepts, y, [a, b]) == Next(cfg, accepts, Next(cfg, accepts, y, a), b)
  {
    hide Next, Play;
    PlayFirst(cfg, accepts, y, [a, b]);
    PlayOne(cfg, accepts, Next(cfg, accepts, y, a), b);
  }

  lemma Reregister(accepts: Accepts, y: System)
    requires accepts("t") && Rejecting(y)
    ensures var z := Play(Registering(), accepts, y, [GatewayReads, ClientReads]);
            Reregistered(z) && z.cRead == y.cRead + 1 && z.w.csent == y.w.csent + [RegackTo(1, 3, Accepted)]
  {
    hide OnPuback, Play, Next;
    var cfg := Registering();
    AckMove(cfg, accepts, y);
    Reload(y.run.snd);
    var y1 := Next(cfg, accepts, y, GatewayReads);
    assert y1.run.snd.sent[y1.w.gRead] == Register(1, 3, Message());
    ReadMove(cfg, accepts, y1);
    TwoPlays(cfg, accepts, y, GatewayReads, ClientReads);
  }

  /** The PUBLISH under the new id is handed over too. */
  lemma HandedOverAgain(accepts: Accepts, y: System)
    requires Reregistered(y) && y.cRead == |y.w.csent| - 1
    ensures Play(Registering(), accepts, y, [GatewayReads, ClientReads]).w.reports ==
            [Report(1, Message()), Report(4, Message())]
  {
    hide OnRegack, Play, Next;
    var cfg := Registering();
    AckMove(cfg, accepts, y);
    Republish(y.run.snd);
    var y1 := Next(cfg, accepts, y, GatewayReads);
    assert y1.run.snd.sent[y1.w.gRead] == Publish(1, Normal, 4, false, Message());
    ReadMove(cfg, accepts, y1);
    TwoPlays(cfg, accepts, y, GatewayReads, ClientReads);
  }

  /** An acknowledgement of the id before is ignored. */
  lemma OldPubrec(accepts: Accepts, y: System)
    requires Reregistered(y) && y.cRead < |y.w.csent| - 1 && y.w.csent[y.cRead] == PubrecTo(1)
    ensures Play(Registering(), accepts, y, [GatewayReads]) == y.(cRead := y.cRead + 1)
  {
    hide Play, Next;
    AckMove(Registering(), accepts, y);
    PlayOne(Registering(), accepts, y, GatewayReads);
  }

  /** The client learns or forgets the topic id, and then the gateway retransmits. */
  lemma ChangedTooEarly(accepts: Accepts, y: System, mv: Move)
    requires Underway(y, 1) && (mv == Learn(1) || mv == Forget(1))
    requires mv.Learn? ==> y.w == World(y.w.gRead, Client(0, {}), [PubackTo(1, 1, InvalidTopicId)], []) && y.cRead == 0
    requires mv.Forget? ==>
               y.w == World(y.w.gRead, Client(1, {1}), [PubrecTo(1)], [Report(1, Message())]) && y.cRead == 1
    ensures var z := Play(Registering(), accepts, y, [mv, AtGateway(Tick), ClientReads]);
            && Rejecting(z) && z.cRead == y.cRead
            && (mv.Learn? ==> z.w.csent == [PubackTo(1, 1, InvalidTopicId), PubrecTo(1)])
            && (mv.Forget? ==> |z.w.csent| == 2)
  {
    hide OnTick, Play;
    var cfg := Registering();
    var y1 := Next(cfg, accepts, y, mv);
    TickMove(cfg, accepts, y1);
    Retransmit(cfg, y1.run.snd);
    var y2 := Next(cfg, accepts, y1, AtGateway(Tick));
    assert y2.run.snd.sent[y2.w.gRead] == Publish(1, Normal, 1, true, Message());
    ReadMove(cfg, accepts, y2);
    ThreePlays(cfg, accepts, y, mv, AtGateway(Tick), ClientReads);
  }

  lemma StartsRegistered(s: Sender)
    requires s.curr.None? && !s.ping && s.ses == Session([Message()], Connected, false) && s.nextMsgId == 0
    ensures var t := Check(Registering(), s);
            && t.nextMsgId == 1 && t.curr == Some(Message()) && t.armed
            && t.fl == Flight(1, TopicInfo(1, Normal, false), 1, 0, false, false)
            && t.sent == s.sent + [Publish(1, Normal, 1, false, Message())]
  {
    hide Check;
    StartsWith(Registering(), Normal, s, Message());
  }

  /** The publication is sent and reaches the client. */
  lemma SentAndRead(accepts: Accepts, known: set<nat>)
    ensures var y := Play(Registering(), accepts, Begin(known), ReceiveMoves());
            && Underway(y, 1) && y.cRead == 0
            && if 1 in known
               then y.w == World(1, Client(1, known), [PubrecTo(1)], [Report(1, Message())])
               else y.w == World(1, Client(0, known), [PubackTo(1, 1, InvalidTopicId)], [])
  {
    hide Check, Next, Registering, Play;
    var cfg := Registering();
    var y1 := Next(cfg, accepts, Begin(known), AtGateway(SetStatus(Connected)));
    ConnectMove(cfg, accepts, known);
    var y2 := Next(cfg, accepts, y1, Enqueues(ExactlyOnce));
    EnqueueOne(cfg, accepts, y1, ExactlyOnce);
    var y3 := Next(cfg, accepts, y2, AtGateway(OtherMessage));
    OtherMove(cfg, accepts, y2);
    StartsRegistered(y2.run.snd);
    assert y3.run.snd.sent[0] == Publish(1, Normal, 1, false, Message());
    ReadMove(cfg, accepts, y3);
    PlayFirst(cfg, accepts, Begin(known), ReceiveMoves());
    ThreePlays(cfg, accepts, y1, Enqueues(ExactlyOnce), AtGateway(OtherMessage), ClientReads);
  }

  function LearnMoves(): seq<Move> {
    ReceiveMoves() + [Learn(1), AtGateway(Tick), ClientReads] + [GatewayReads, ClientReads] + [GatewayReads]
    + [GatewayReads, ClientReads]
  }

  /** A SUBACK that tells the client the topic id between a rejection and the retransmission: delivered twice. */
  lemma LearningDeliversTwice(accepts: Accepts)
    requires accepts("t")
    ensures var z := Play(Registering(), accepts, Begin({}), LearnMoves());
            exists p: Pub :: p.qos == ExactlyOnce && Deliveries(z.w.reports, p) == 2
  {
    hide Play, Registering, ReceiveMoves, Underway, Rejecting, Reregistered, Deliveries;
    var cfg, y0 := Registering(), Begin({});
    var change, answer: seq<Move> := [Learn(1), AtGateway(Tick), ClientReads], [GatewayReads, ClientReads];
    var y1 := Play(cfg, accepts, y0, ReceiveMoves());
    SentAndRead(accepts, {});
    var y2 := Play(cfg, accepts, y1, change);
    ChangedTooEarly(accepts, y1, Learn(1));
    PlayConcat(cfg, accepts, y0, ReceiveMoves(), change);
    var y3 := Play(cfg, accepts, y2, answer);
    Reregister(accepts, y2);
    PlayConcat(cfg, accepts, y0, ReceiveMoves() + change, answer);
    var y4 := Play(cfg, accepts, y3, [GatewayReads]);
    OldPubrec(accepts, y3);
    PlayConcat(cfg, accepts, y0, ReceiveMoves() + change + answer, [GatewayReads]);
    StillReregistered(y3);
    HandedOverAgain(accepts, y4);
    PlayConcat(cfg, accepts, y0, ReceiveMoves() + change + answer + [GatewayReads], answer);
    TwoReports(4, Message());
  }

  lemma StillReregistered(y: System)
    requires Reregistered(y) && y.cRead + 1 < |y.w.csent|
    ensures Reregistered(y.(cRead := y.cRead + 1))
  {
  }

  function ForgetMoves(): seq<Move> {
    ReceiveMoves() + [GatewayLoses] + [Forget(1), AtGateway(Tick), ClientReads] + [GatewayReads, ClientReads]
    + [GatewayReads, ClientReads]
  }

  /** A topic id dropped from the client's tables between an acceptance and the retransmission: delivered twice. */
  lemma ForgettingDeliversTwice(accepts: Accepts)
    requires accepts("t")
    ensures var z := Play(Registering(), accepts, Begin({1}), ForgetMoves());
            exists p: Pub :: p.qos == ExactlyOnce && Deliveries(z.w.reports, p) == 2
  {
    hide Play, Registering, ReceiveMoves, Rejecting, Reregistered, Deliveries;
    var cfg, y0 := Registering(), Begin({1});
    var change, answer: seq<Move> := [Forget(1), AtGateway(Tick), ClientReads], [GatewayReads, ClientReads];
    var y1 := Play(cfg, accepts, y0, ReceiveMoves());
    SentAndRead(accepts, {1});
    var u := Play(cfg, accepts, y1, [GatewayLoses]);
    PlayOne(cfg, accepts, y1, GatewayLoses);
    PlayConcat(cfg, accepts, y0, ReceiveMoves(), [GatewayLoses]);
    var y2 := Play(cfg, accepts, u, change);
    ChangedTooEarly(accepts, u, Forget(1));
    PlayConcat(cfg, accepts, y0, ReceiveMoves() + [GatewayLoses], change);
    var y3 := Play(cfg, accepts, y2, answer);
    Reregister(accepts, y2);
    PlayConcat(cfg, accepts, y0, ReceiveMoves() + [GatewayLoses] + change, answer);
    HandedOverAgain(accepts, y3);
    PlayConcat(cfg, accepts, y0, ReceiveMoves() + [GatewayLoses] + change + answer, answer);
    TwoReports(4, Message());
  }

  /** A clean CONNECT between an acceptance and the retransmission: delivered twice. */
  lemma CleanConnectDeliversTwice(accepts: Accepts)
    ensures var z := Play(OneTopic(), accepts, Begin({}), ReceiveMoves() + CleanMoves());
            exists p: Pub :: p.qos == ExactlyOnce && Deliveries(z.w.reports, p) == 2
  {
    hide Play, ReceiveMoves, OnTick;
    var cfg := OneTopic();
    Receive(accepts);
    var y := Play(cfg, accepts, Begin({}), ReceiveMoves());
    var p := y.run.snd.curr.value;
    var y1 := Next(cfg, accepts, y, CleanConnect);
    TickMove(cfg, accepts, y1);
    Retransmit(cfg, y1.run.snd);
    var y2 := Next(cfg, accepts, y1, AtGateway(Tick));
    var y3 := Next(cfg, accepts, y2, ClientReads);
    assert y3.w.reports == [Report(1, p), Report(1, p)];
    ThreePlays(cfg, accepts, y, CleanConnect, AtGateway(Tick), ClientReads);
    PlayConcat(cfg, accepts, Begin({}), ReceiveMoves(), CleanMoves());
    TwoReports(1, p);
  }

  function CleanMoves(): seq<Move> {
    [CleanConnect, AtGateway(Tick), ClientReads]
  }

  lemma TwoReports(k: nat, p: Pub)
    ensures Deliveries([Report(1, p), Report(k, p)], p) == 2
  {
    var one := [Report(1, p)];
    var two := [Report(1, p), Report(k, p)];
    assert one[..|one| - 1] == [] && two[..|two| - 1] == one;
    assert Deliveries(one, p) == Deliveries([], p) + 1;
    assert Deliveries(two, p) == Deliveries(one, p) + 1;
  }
}
