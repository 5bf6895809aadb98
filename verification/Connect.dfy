/**
 * The gateway's connect operation: the will dialogue with the client and the MQTT CONNECT to the broker.
 *
 * The functions on `World` say what each entry point does to the operation and to the shared session
 * state, and the class does it in steps.  Other operations may change the session state between events.
 * `log` is what came in and went out.
 */
module Connect {
  import opened Protocol

  datatype WillInfo = WillInfo(topic: string, msg: string, flags: nat)

  const NO_WILL := WillInfo("", "", 0)

  /** Return codes of an MQTT CONNACK. */
  datatype BrokerCode = BrokerAccepted | ServerUnavailable | Refused

  datatype Session = Session(connStatus: ConnStatus, clientId: string, brokerConnected: bool,
                             pendingClientDisconnect: bool, keepAlive: nat, will: WillInfo)

  datatype Config = Config(retryCount: nat, defaultClientId: string, pubOnlyKeepAlive: nat)

  datatype Flags = Flags(attempt: nat, hasClientId: bool, hasWillTopic: bool, hasWillMsg: bool,
                         waitingForReconnect: bool, pubOnlyClient: bool)

  const NO_FLAGS := Flags(0, false, false, false, false, false)

  datatype Request = Request(clientId: string, will: WillInfo, keepAlive: nat, clean: bool)

  const NO_REQUEST := Request("", NO_WILL, 0, false)

  /** What a CONNECT of the client asks for, its will aside. */
  datatype Asked = Asked(id: string, withWill: bool, keepAlive: nat, clean: bool)

  datatype Item =
    | Begin(asked: Asked, kept: WillInfo)
    | GotWillTopic(topic: string, willFlags: nat)
    | GotWillMsg(msg: string)
    | Cleared
    | GaveUp
    | ConnectToBroker(req: Request)
    | DisconnectToBroker
    | PingToBroker
    | WillTopicReq
    | WillMsgReq
    | ConnackToClient(rc: ReturnCode)
    | DisconnectToClient
    | TermReq
    | ReconnectReq
    | ClientReported(id: string)
    | RegistrationsCleared

  /** `reported`: the application knows of the client. */
  datatype World = World(flags: Flags, req: Request, armed: bool, sess: Session, reported: bool, log: seq<Item>)

  /* What each entry point does */

  function Say(w: World, item: Item): World {
    w.(log := w.log + [item])
  }

  function ClearInternalState(w: World): World {
    Say(w.(flags := NO_FLAGS, req := NO_REQUEST), Cleared)
  }

  function ClearConnectionInfo(w: World, clearClientId: bool): World {
    w.(sess := w.sess.(clientId := if clearClientId then "" else w.sess.clientId,
                       connStatus := Disconnected, keepAlive := 0, will := NO_WILL))
  }

  function ToReturnCode(code: BrokerCode): ReturnCode {
    match code
    case BrokerAccepted => Accepted
    case ServerUnavailable => Congestion
    case Refused => NotSupported
  }

  function ClearRegistrations(w: World): World {
    if w.req.clean then Say(w, RegistrationsCleared) else w
  }

  function ReportClient(w: World): World {
    if w.reported then w else Say(w.(reported := true), ClientReported(w.req.clientId))
  }

  /** The session after an acceptance. */
  function Accept(w: World): World {
    w.(sess := w.sess.(clientId := w.req.clientId, connStatus := Connected, keepAlive := w.req.keepAlive,
                       will := w.req.will))
  }

  function ProcessAck(w: World, code: BrokerCode): World {
    var told := if w.flags.pubOnlyClient then w.(armed := false) else Say(w, ConnackToClient(ToReturnCode(code)));
    if code != BrokerAccepted then ClearInternalState(ClearConnectionInfo(told, true))
    else ClearRegistrations(ClearInternalState(Accept(ReportClient(told))))
  }

  /** The request asks for what the session already has. */
  predicate AlreadyConnected(w: World) {
    && w.sess.will.topic == w.req.will.topic && (w.req.will.topic != "" ==> w.sess.will == w.req.will)
    && w.sess.clientId == w.req.clientId
    && (w.sess.pendingClientDisconnect || w.sess.keepAlive == w.req.keepAlive)
  }

  /** What is done before such a request is accepted without asking the broker. */
  function Refresh(w: World): World {
    if w.sess.pendingClientDisconnect then w
    else
      ClearRegistrations(if w.sess.connStatus == Asleep && w.sess.brokerConnected then Say(w, PingToBroker) else w)
  }

  function Forward(w: World): World {
    if w.sess.clientId != "" && w.sess.clientId != w.req.clientId then ProcessAck(w, Refused)
    else if AlreadyConnected(w) then ProcessAck(Refresh(w), BrokerAccepted)
    else if !w.sess.brokerConnected then ProcessAck(w, ServerUnavailable)
    else if w.sess.connStatus != Disconnected then
      Say(Say(w, DisconnectToBroker).(flags := w.flags.(waitingForReconnect := true), armed := true), ReconnectReq)
    else Say(w, ConnectToBroker(w.req)).(armed := w.flags.pubOnlyClient)
  }

  function DoNextStep(c: Config, w: World): World {
    var w := w.(armed := false);
    if c.retryCount <= w.flags.attempt then
      Say(w.(req := w.req.(clientId := ""), sess := w.sess.(connStatus := Disconnected)), GaveUp)
    else
      var w := w.(flags := w.flags.(attempt := w.flags.attempt + 1));
      if w.flags.waitingForReconnect then Say(ProcessAck(w, ServerUnavailable), TermReq)
      else if w.flags.hasWillMsg then Forward(w)
      else if w.flags.hasWillTopic then Say(w, WillMsgReq).(armed := true)
      else Say(w, WillTopicReq).(armed := true)
  }

  /** The flags and the request after an accepted CONNECT. */
  function Start(w: World, id: string, withWill: bool, keepAlive: nat, clean: bool): World {
    var flags := if w.flags.hasClientId then NO_FLAGS else w.flags;
    var will := if withWill then w.req.will else if clean then NO_WILL else w.sess.will;
    Say(w.(flags := flags.(hasClientId := true, hasWillTopic := flags.hasWillTopic || !withWill,
                           hasWillMsg := flags.hasWillMsg || !withWill),
           req := Request(id, will, keepAlive, clean)), Begin(Asked(id, withWill, keepAlive, clean), w.sess.will))
  }

  function OnConnect(c: Config, w: World, clientId: string, withWill: bool, keepAlive: nat, clean: bool): World {
    var id := if clientId == "" then c.defaultClientId else clientId;
    if w.sess.connStatus != Disconnected && id != w.sess.clientId then
      Say(Say(w.(sess := w.sess.(connStatus := Disconnected)), DisconnectToClient), TermReq)
    else
      var w := Start(w, id, withWill, keepAlive, clean);
      if w.sess.connStatus == Disconnected && !w.sess.brokerConnected && !w.flags.waitingForReconnect
         && !w.sess.pendingClientDisconnect
      then w.(flags := w.flags.(waitingForReconnect := true), armed := true)
      else DoNextStep(c, w)
  }

  function OnWillTopic(c: Config, w: World, topic: string, flags: nat): World {
    var w := Say(w, GotWillTopic(topic, flags));
    if !w.flags.hasClientId || w.flags.hasWillMsg then w
    else
      var w := w.(flags := w.flags.(hasWillTopic := true, attempt := 0, hasWillMsg := topic == ""),
                  req := w.req.(will := WillInfo(topic, w.req.will.msg, flags)));
      DoNextStep(c, if topic != "" && w.sess.connStatus == Connected then Say(w, PingToBroker) else w)
  }

  function OnWillMsg(c: Config, w: World, msg: string): World {
    var w := Say(w, GotWillMsg(msg));
    if !w.flags.hasWillTopic then w
    else
      DoNextStep(c, w.(flags := w.flags.(hasWillMsg := true, attempt := 0),
                       req := w.req.(will := w.req.will.(msg := msg))))
  }

  function PubOnly(c: Config): Asked {
    Asked(c.defaultClientId, false, c.pubOnlyKeepAlive, true)
  }

  /** A PUBLISH with QoS -1 connects a publish-only client. */
  function OnPublish(c: Config, w: World, noGwPublish: bool): World {
    if w.sess.connStatus != Disconnected || w.sess.pendingClientDisconnect || w.sess.clientId != ""
       || w.req.clientId != "" || !noGwPublish then w
    else
      var w := Say(ClearInternalState(w).(flags := Flags(0, true, true, true, false, true),
                                          req := Request(c.defaultClientId, NO_WILL, c.pubOnlyKeepAlive, true)),
                   Begin(PubOnly(c), w.sess.will));
      if w.sess.brokerConnected then DoNextStep(c, w)
      else w.(flags := w.flags.(waitingForReconnect := true), armed := true)
  }

  function OnConnack(w: World, code: BrokerCode): World {
    if !w.flags.hasWillMsg then w else ProcessAck(w, code)
  }

  function OnTick(c: Config, w: World): World {
    if !w.armed then w else DoNextStep(c, w.(armed := false))
  }

  function OnBrokerUpdated(c: Config, w: World, connected: bool): World {
    var w := w.(sess := w.sess.(brokerConnected := connected));
    if !w.flags.waitingForReconnect then w
    else if !connected then ClearConnectionInfo(w, false)
    else DoNextStep(c, w.(flags := w.flags.(waitingForReconnect := false)))
  }

  /* Runs */

  datatype Event =
    | Connect(clientId: string, withWill: bool, keepAlive: nat, clean: bool)
    | WillTopic(topic: string, flags: nat)
    | WillMsg(msg: string)
    | Publish(noGwPublish: bool)
    | Connack(code: BrokerCode)
    | Tick
    | BrokerUpdated(connected: bool)
    | Others(sess: Session)

  function Step(c: Config, w: World, e: Event): World {
    match e
    case Connect(id, withWill, keepAlive, clean) => OnConnect(c, w, id, withWill, keepAlive, clean)
    case WillTopic(topic, flags) => OnWillTopic(c, w, topic, flags)
    case WillMsg(msg) => OnWillMsg(c, w, msg)
    case Publish(noGwPublish) => OnPublish(c, w, noGwPublish)
    case Connack(code) => OnConnack(w, code)
    case Tick => OnTick(c, w)
    case BrokerUpdated(connected) => OnBrokerUpdated(c, w, connected)
    case Others(sess) => w.(sess := sess)
  }

  function Exec(c: Config, w: World, events: seq<Event>): World
    decreases |events|
  {
    if events == [] then w else Exec(c, Step(c, w, events[0]), events[1..])
  }

  function Initial(sess: Session): World {
    World(NO_FLAGS, NO_REQUEST, false, sess, false, [])
  }

  /* What the log says about the dialogue */

  datatype Progress =
    | Idle
    | Dialogue(asked: Asked, will: WillInfo, topicSeen: bool, emptySeen: bool, msgSeen: bool, gaveUp: bool)

  /** A client that announces no will keeps that of its session, unless it asks for a clean one. */
  function WillAtBegin(asked: Asked, kept: WillInfo): WillInfo {
    if asked.withWill || asked.clean then NO_WILL else kept
  }

  function Advance(p: Progress, item: Item): Progress {
    match item
    case Begin(asked, kept) => Dialogue(asked, WillAtBegin(asked, kept), false, false, false, false)
    case Cleared => Idle
    case GotWillTopic(topic, flags) =>
      if p.Idle? || DialogueDone(p) then p
      else p.(topicSeen := true, emptySeen := topic == "", will := WillInfo(topic, p.will.msg, flags))
    case GotWillMsg(msg) => if !TopicDone(p) then p else p.(msgSeen := true, will := p.will.(msg := msg))
    case GaveUp => if p.Idle? then p else p.(gaveUp := true)
    case _ => p
  }

  /** The dialogue under way, by the messages the client sent since it began. */
  function Since(log: seq<Item>): Progress {
    if log == [] then Idle else Advance(Since(log[..|log| - 1]), log[|log| - 1])
  }

  predicate TopicDone(p: Progress) {
    p.Dialogue? && (!p.asked.withWill || p.topicSeen)
  }

  /** No will was announced, the will topic came empty, or the will message followed the will topic. */
  predicate DialogueDone(p: Progress) {
    p.Dialogue? && (!p.asked.withWill || p.emptySeen || p.msgSeen)
  }

  /** The request is that of the dialogue: the will announced, kept or dropped in it, the client id unless the operation
      gave up. */
  predicate Carries(req: Request, p: Progress)
    requires p.Dialogue?
  {
    && req.clientId == (if p.gaveUp then "" else p.asked.id)
    && req.keepAlive == p.asked.keepAlive && req.clean == p.asked.clean
    && if !p.asked.withWill then req.will == p.will
       else req.will.topic == p.will.topic && (p.will.topic != "" ==> req.will == p.will)
  }

  /** Every CONNECT to the broker follows a finished dialogue and carries what the client said in it. */
  ghost predicate ConnectsFollow(log: seq<Item>) {
    forall i :: 0 <= i < |log| && log[i].ConnectToBroker? ==>
      DialogueDone(Since(log[..i])) && Carries(log[i].req, Since(log[..i]))
  }

  /** The client is asked for its will message only when it announced a will, sent the topic and not the message. */
  ghost predicate RequestsFollow(log: seq<Item>) {
    forall i :: 0 <= i < |log| && log[i].WillMsgReq? ==>
      var p := Since(log[..i]);
      TopicDone(p) && !DialogueDone(p)
  }

  /** Registrations are cleared only for a finished dialogue that asked for a clean session. */
  ghost predicate ClearsFollow(log: seq<Item>) {
    forall i :: 0 <= i < |log| && log[i].RegistrationsCleared? ==>
      DialogueDone(Since(log[..i])) && Since(log[..i]).asked.clean
  }

  function Reports(log: seq<Item>): nat {
    if log == [] then 0 else Reports(log[..|log| - 1]) + if log[|log| - 1].ClientReported? then 1 else 0
  }

  ghost predicate LogFollows(reported: bool, log: seq<Item>) {
    && ConnectsFollow(log) && RequestsFollow(log) && ClearsFollow(log)
    && Reports(log) == if reported then 1 else 0
  }

  ghost predicate Inv(w: World) {
    && LogFollows(w.reported, w.log)
    && Tied(w.flags, w.req, Since(w.log))
    && (w.armed && w.flags.hasWillMsg ==> w.flags.waitingForReconnect || w.flags.pubOnlyClient)
  }

  /** The flags of the operation are where the dialogue is. */
  ghost predicate Tied(flags: Flags, req: Request, p: Progress) {
    && (flags.hasClientId <==> p.Dialogue?)
    && (flags.hasWillTopic <==> TopicDone(p)) && (flags.hasWillMsg <==> DialogueDone(p))
    && (p.Dialogue? ==> Agrees(req, p))
    && (p.Idle? ==> req.clientId == "" && !flags.waitingForReconnect && !flags.pubOnlyClient)
  }

  ghost predicate Agrees(req: Request, p: Progress)
    requires p.Dialogue?
  {
    && req.clientId == (if p.gaveUp then "" else p.asked.id)
    && req.keepAlive == p.asked.keepAlive && req.clean == p.asked.clean
    && (p.emptySeen ==> p.topicSeen && p.will.topic == "") && (!p.asked.withWill ==> req.will == p.will)
    && (p.asked.withWill && p.msgSeen ==> p.topicSeen && req.will.msg == p.will.msg)
    && (p.asked.withWill && p.topicSeen ==> req.will.topic == p.will.topic && req.will.flags == p.will.flags)
  }

  lemma SayKeeps(w: World, item: Item)
    requires LogFollows(w.reported, w.log) && (item.ClientReported? ==> !w.reported)
    requires item.RegistrationsCleared? ==> DialogueDone(Since(w.log)) && Since(w.log).asked.clean
    requires item.ConnectToBroker? ==> DialogueDone(Since(w.log)) && Carries(item.req, Since(w.log))
    requires item.WillMsgReq? ==> TopicDone(Since(w.log)) && !DialogueDone(Since(w.log))
    ensures LogFollows(w.reported || item.ClientReported?, Say(w, item).log)
    ensures Since(Say(w, item).log) == Advance(Since(w.log), item)
  {
    var log' := w.log + [item];
    assert log'[..|w.log|] == w.log;
    forall i | 0 <= i < |log'| ensures log'[..i] == w.log[..i] {
    }
    assert w.log[..|w.log|] == w.log;
  }

  /** `Inv` without the clause on the timer. */
  ghost predicate Core(w: World) {
    LogFollows(w.reported, w.log) && Tied(w.flags, w.req, Since(w.log))
  }

  lemma ClearKeeps(w: World)
    requires LogFollows(w.reported, w.log)
    ensures Inv(ClearInternalState(w))
  {
    SayKeeps(w.(flags := NO_FLAGS, req := NO_REQUEST), Cleared);
  }

  lemma AckKeeps(w: World, code: BrokerCode)
    requires LogFollows(w.reported, w.log)
    ensures Inv(ProcessAck(w, code)) && !ProcessAck(w, code).flags.hasClientId
    ensures ProcessAck(w, code).armed == (w.armed && !w.flags.pubOnlyClient)
  {
    hide LogFollows, Since, Inv;
    SayKeeps(w, ConnackToClient(ToReturnCode(code)));
    var told := if w.flags.pubOnlyClient then w.(armed := false) else Say(w, ConnackToClient(ToReturnCode(code)));
    ClearKeeps(ClearConnectionInfo(told, true));
    if !told.reported {
      SayKeeps(told, ClientReported(told.req.clientId));
    }
    ClearKeeps(Accept(ReportClient(told)));
  }

  predicate Quiet(item: Item) {
    !item.Begin? && !item.GotWillTopic? && !item.GotWillMsg? && !item.Cleared? && !item.GaveUp?
    && !item.ConnectToBroker? && !item.WillMsgReq? && !item.ClientReported? && !item.RegistrationsCleared?
  }

  /** Anything said that is not part of the dialogue. */
  lemma QuietKeeps(w: World, item: Item)
    requires Quiet(item)
    ensures Core(w) ==> Core(Say(w, item))
    ensures Inv(w) ==> Inv(Say(w, item))
  {
    if Core(w) {
      SayKeeps(w, item);
    }
  }

  /** The operation waits for a tick although there is no client id to go on with. */
  predicate Orphaned(w: World) {
    w.armed && !w.flags.hasClientId
  }

  lemma RefreshKeeps(w: World)
    requires Core(w) && w.flags.hasWillMsg
    ensures Core(Refresh(w)) && Refresh(w).armed == w.armed
  {
    hide LogFollows, Since;
    QuietKeeps(w, PingToBroker);
    SayKeeps(w, PingToBroker);
    if w.req.clean {
      SayKeeps(w, RegistrationsCleared);
      SayKeeps(Say(w, PingToBroker), RegistrationsCleared);
    }
  }

  lemma ForwardKeeps(w: World)
    requires Core(w) && w.flags.hasClientId && w.flags.hasWillMsg && !w.armed
    ensures Inv(Forward(w)) && !Orphaned(Forward(w))
  {
    hide LogFollows, ProcessAck, AlreadyConnected, Refresh, Tied, Since;
    AckKeeps(w, Refused);
    AckKeeps(w, ServerUnavailable);
    RefreshKeeps(w);
    AckKeeps(Refresh(w), BrokerAccepted);
    ReconnectKeeps(w);
    ConnectToBrokerKeeps(w);
  }

  lemma ReconnectKeeps(w: World)
    requires Core(w) && w.flags.hasClientId
    ensures var w1 := Say(w, DisconnectToBroker).(flags := w.flags.(waitingForReconnect := true), armed := true);
            Inv(Say(w1, ReconnectReq))
  {
    hide LogFollows, Since;
    SayKeeps(w, DisconnectToBroker);
    var w1 := Say(w, DisconnectToBroker).(flags := w.flags.(waitingForReconnect := true), armed := true);
    QuietKeeps(w1, ReconnectReq);
  }

  lemma ConnectToBrokerKeeps(w: World)
    requires Core(w) && w.flags.hasWillMsg
    ensures Inv(Say(w, ConnectToBroker(w.req)).(armed := w.flags.pubOnlyClient))
  {
    hide LogFollows, Since;
    SayKeeps(w, ConnectToBroker(w.req));
  }

  lemma GiveUpKeeps(w: World)
    requires Core(w) && !w.armed
    ensures Inv(Say(w.(req := w.req.(clientId := ""), sess := w.sess.(connStatus := Disconnected)), GaveUp))
  {
    hide LogFollows, Since;
    SayKeeps(w.(req := w.req.(clientId := ""), sess := w.sess.(connStatus := Disconnected)), GaveUp);
  }

  lemma AskKeeps(w: World)
    requires Core(w) && !w.flags.hasWillMsg
    ensures w.flags.hasWillTopic ==> Inv(Say(w, WillMsgReq).(armed := true))
    ensures !w.flags.hasWillTopic ==> Inv(Say(w, WillTopicReq).(armed := true))
  {
    hide LogFollows, Since;
    if w.flags.hasWillTopic {
      SayKeeps(w, WillMsgReq);
    }
    SayKeeps(w, WillTopicReq);
  }

  lemma WaitKeeps(w: World)
    requires Core(w) && !w.armed
    ensures Inv(Say(ProcessAck(w, ServerUnavailable), TermReq))
    ensures !Say(ProcessAck(w, ServerUnavailable), TermReq).armed
  {
    hide LogFollows, Tied, Since, ProcessAck;
    AckKeeps(w, ServerUnavailable);
    QuietKeeps(ProcessAck(w, ServerUnavailable), TermReq);
  }

  /** The chain of the flags. */
  lemma Chain(w: World)
    requires Core(w)
    ensures (w.flags.hasWillMsg ==> w.flags.hasWillTopic) && (w.flags.hasWillTopic ==> w.flags.hasClientId)
  {
  }

  /** Fields the invariant does not look at. */
  lemma CoreFrame(w: World, w': World)
    requires Core(w) && w'.log == w.log && w'.reported == w.reported && w'.req == w.req
    requires w'.flags == w.flags.(attempt := w'.flags.attempt, waitingForReconnect := w'.flags.waitingForReconnect)
    requires w'.flags.waitingForReconnect ==> w.flags.hasClientId
    ensures Core(w')
  {
  }

  lemma NextStepKeeps(c: Config, w: World)
    requires Core(w)
    ensures Inv(DoNextStep(c, w)) && (w.flags.hasClientId ==> !Orphaned(DoNextStep(c, w)))
  {
    hide Core, Inv, ProcessAck, Forward;
    var w0 := w.(armed := false);
    Waiting(w);
    CoreFrame(w, w0);
    if c.retryCount <= w.flags.attempt {
      GiveUpKeeps(w0);
    } else {
      var w1 := w0.(flags := w.flags.(attempt := w.flags.attempt + 1));
      CoreFrame(w, w1);
      Chain(w);
      if w.flags.waitingForReconnect {
        WaitKeeps(w1);
      } else if w.flags.hasWillMsg {
        ForwardKeeps(w1);
      } else {
        AskKeeps(w1);
      }
    }
  }

  lemma Waiting(w: World)
    requires Core(w)
    ensures w.flags.waitingForReconnect || w.flags.pubOnlyClient ==> w.flags.hasClientId
  {
  }

  lemma CoreOf(w: World)
    requires Inv(w)
    ensures Core(w)
  {
  }

  lemma StartKeeps(w: World, id: string, withWill: bool, keepAlive: nat, clean: bool)
    requires Inv(w)
    ensures Core(Start(w, id, withWill, keepAlive, clean))
  {
    hide LogFollows, Since;
    SayKeeps(w, Begin(Asked(id, withWill, keepAlive, clean), w.sess.will));
  }

  lemma WaitForBrokerKeeps(w: World)
    requires Core(w) && w.flags.hasClientId
    ensures Inv(w.(flags := w.flags.(waitingForReconnect := true), armed := true))
  {
  }

  lemma ConnectKeeps(c: Config, w: World, clientId: string, withWill: bool, keepAlive: nat, clean: bool)
    requires Inv(w)
    ensures Inv(OnConnect(c, w, clientId, withWill, keepAlive, clean))
    ensures !Orphaned(w) ==> !Orphaned(OnConnect(c, w, clientId, withWill, keepAlive, clean))
  {
    hide Core, Inv, DoNextStep, LogFollows;
    var id := if clientId == "" then c.defaultClientId else clientId;
    var rejected := w.(sess := w.sess.(connStatus := Disconnected));
    OthersKeeps(w, rejected.sess);
    QuietKeeps(rejected, DisconnectToClient);
    QuietKeeps(Say(rejected, DisconnectToClient), TermReq);
    StartKeeps(w, id, withWill, keepAlive, clean);
    WaitForBrokerKeeps(Start(w, id, withWill, keepAlive, clean));
    NextStepKeeps(c, Start(w, id, withWill, keepAlive, clean));
  }

  function WithTopic(w: World, topic: string, flags: nat): World {
    w.(flags := w.flags.(hasWillTopic := true, attempt := 0, hasWillMsg := topic == ""),
       req := w.req.(will := WillInfo(topic, w.req.will.msg, flags)))
  }

  lemma TopicKeeps(w: World, topic: string, flags: nat)
    requires Inv(w)
    ensures !w.flags.hasClientId || w.flags.hasWillMsg ==> Inv(Say(w, GotWillTopic(topic, flags)))
    ensures w.flags.hasClientId && !w.flags.hasWillMsg ==>
              Core(WithTopic(Say(w, GotWillTopic(topic, flags)), topic, flags))
  {
    hide LogFollows, Since;
    SayKeeps(w, GotWillTopic(topic, flags));
  }

  lemma WillTopicKeeps(c: Config, w: World, topic: string, flags: nat)
    requires Inv(w)
    ensures Inv(OnWillTopic(c, w, topic, flags))
    ensures !Orphaned(w) ==> !Orphaned(OnWillTopic(c, w, topic, flags))
  {
    hide Core, Inv, DoNextStep;
    TopicKeeps(w, topic, flags);
    if w.flags.hasClientId && !w.flags.hasWillMsg {
      var w2 := WithTopic(Say(w, GotWillTopic(topic, flags)), topic, flags);
      QuietKeeps(w2, PingToBroker);
      NextStepKeeps(c, if topic != "" && w.sess.connStatus == Connected then Say(w2, PingToBroker) else w2);
    }
  }

  function WithMsg(w: World, msg: string): World {
    w.(flags := w.flags.(hasWillMsg := true, attempt := 0), req := w.req.(will := w.req.will.(msg := msg)))
  }

  lemma MsgKeeps(w: World, msg: string)
    requires Inv(w)
    ensures !w.flags.hasWillTopic ==> Inv(Say(w, GotWillMsg(msg)))
    ensures w.flags.hasWillTopic ==> Core(WithMsg(Say(w, GotWillMsg(msg)), msg)) && w.flags.hasClientId
  {
    hide LogFollows, Since;
    SayKeeps(w, GotWillMsg(msg));
  }

  lemma WillMsgKeeps(c: Config, w: World, msg: string)
    requires Inv(w)
    ensures Inv(OnWillMsg(c, w, msg))
    ensures !Orphaned(w) ==> !Orphaned(OnWillMsg(c, w, msg))
  {
    hide Core, Inv, DoNextStep;
    MsgKeeps(w, msg);
    if w.flags.hasWillTopic {
      NextStepKeeps(c, WithMsg(Say(w, GotWillMsg(msg)), msg));
    }
  }

  lemma PublishKeeps(c: Config, w: World, noGwPublish: bool)
    requires Inv(w)
    ensures Inv(OnPublish(c, w, noGwPublish))
    ensures !Orphaned(w) ==> !Orphaned(OnPublish(c, w, noGwPublish))
  {
    hide LogFollows, DoNextStep;
    ClearKeeps(w);
    var w1 := ClearInternalState(w).(flags := Flags(0, true, true, true, false, true),
                                     req := Request(c.defaultClientId, NO_WILL, c.pubOnlyKeepAlive, true));
    SayKeeps(w1, Begin(PubOnly(c), w.sess.will));
    NextStepKeeps(c, Say(w1, Begin(PubOnly(c), w.sess.will)));
  }

  lemma BrokerUpdatedKeeps(c: Config, w: World, connected: bool)
    requires Inv(w)
    ensures Inv(OnBrokerUpdated(c, w, connected))
    ensures !Orphaned(w) ==> !Orphaned(OnBrokerUpdated(c, w, connected))
  {
    hide Core, DoNextStep, LogFollows, Tied;
    CoreOf(w);
    Waiting(w);
    var w1 := w.(sess := w.sess.(brokerConnected := connected), flags := w.flags.(waitingForReconnect := false));
    CoreFrame(w, w1);
    NextStepKeeps(c, w1);
  }

  lemma ConnackKeeps(w: World, code: BrokerCode)
    requires Inv(w)
    ensures Inv(OnConnack(w, code))
    ensures !Orphaned(w) ==> (Orphaned(OnConnack(w, code)) <==> w.flags.hasWillMsg && w.armed && !w.flags.pubOnlyClient)
    ensures w.flags.hasWillMsg && w.armed && !w.flags.pubOnlyClient ==> w.flags.waitingForReconnect
  {
    hide LogFollows, ProcessAck;
    AckKeeps(w, code);
  }

  lemma TickKeeps(c: Config, w: World)
    requires Inv(w)
    ensures Inv(OnTick(c, w))
    ensures !Orphaned(w) ==> !Orphaned(OnTick(c, w))
  {
    hide Core, DoNextStep, LogFollows;
    CoreOf(w);
    Waiting(w);
    CoreFrame(w, w.(armed := false));
    NextStepKeeps(c, w.(armed := false));
  }

  lemma OthersKeeps(w: World, sess: Session)
    requires Inv(w)
    ensures Inv(w.(sess := sess))
  {
  }

  /**
   * Every step keeps the invariant, and leaves the timer running without a client id exactly when a
   * CONNACK is taken while the operation waits for the broker to reconnect.
   */
  lemma StepKeeps(c: Config, w: World, e: Event)
    requires Inv(w)
    ensures Inv(Step(c, w, e))
    ensures !Orphaned(w) ==>
              (Orphaned(Step(c, w, e)) <==> e.Connack? && w.flags.hasWillMsg && w.armed && !w.flags.pubOnlyClient)
    ensures !Orphaned(w) && Orphaned(Step(c, w, e)) ==> w.flags.waitingForReconnect
  {
    hide Inv, OnConnect, OnWillTopic, OnWillMsg, OnPublish, OnBrokerUpdated, OnConnack, OnTick;
    match e
    case Connect(id, withWill, keepAlive, clean) => ConnectKeeps(c, w, id, withWill, keepAlive, clean);
    case WillTopic(topic, flags) => WillTopicKeeps(c, w, topic, flags);
    case WillMsg(msg) => WillMsgKeeps(c, w, msg);
    case Publish(noGwPublish) => PublishKeeps(c, w, noGwPublish);
    case Connack(code) => ConnackKeeps(w, code);
    case Tick => TickKeeps(c, w);
    case BrokerUpdated(connected) => BrokerUpdatedKeeps(c, w, connected);
    case Others(sess) => OthersKeeps(w, sess);
  }

  /* Who is asked for a will topic */

  /** From `w` to `w'` a WILLTOPICREQ went out although no dialogue waited for the topic. */
  ghost predicate AsksOutside(w: World, w': World) {
    exists i :: |w.log| <= i < |w'.log| && w'.log[i].WillTopicReq? && !WaitsForTopic(Since(w'.log[..i]))
  }

  predicate WaitsForTopic(p: Progress) {
    p.Dialogue? && !TopicDone(p)
  }

  /** Something was said, but no WILLTOPICREQ. */
  ghost predicate Unasked(w: World, w': World) {
    w.log <= w'.log && forall i :: |w.log| <= i < |w'.log| ==> !w'.log[i].WillTopicReq?
  }

  lemma AsksLater(w: World, u: World, w': World)
    requires Unasked(w, u) && u.log <= w'.log
    ensures AsksOutside(w, w') <==> AsksOutside(u, w')
  {
    forall i | |w.log| <= i < |u.log| ensures !w'.log[i].WillTopicReq? {
      assert w'.log[i] == u.log[i];
    }
  }

  lemma UnaskedThen(w: World, u: World, w': World)
    requires Unasked(w, u) && Unasked(u, w')
    ensures Unasked(w, w') && !AsksOutside(w, w')
  {
    forall i | |w.log| <= i < |w'.log| ensures !w'.log[i].WillTopicReq? {
      assert i < |u.log| ==> w'.log[i] == u.log[i];
    }
  }

  lemma AckUnasked(w: World, code: BrokerCode)
    ensures Unasked(w, ProcessAck(w, code))
  {
  }

  lemma RefreshUnasked(w: World)
    ensures Unasked(w, Refresh(w))
  {
  }

  lemma ForwardUnasked(w: World)
    ensures Unasked(w, Forward(w))
  {
    hide ProcessAck, Refresh;
    RefreshUnasked(w);
    AckUnasked(w, Refused);
    AckUnasked(w, ServerUnavailable);
    AckUnasked(Refresh(w), BrokerAccepted);
    UnaskedThen(w, Refresh(w), ProcessAck(Refresh(w), BrokerAccepted));
  }

  /** The next step asks for a will topic outside a dialogue exactly when there is no client id and a retry is left. */
  lemma NextStepAsks(c: Config, w: World)
    requires Core(w)
    ensures w.log <= DoNextStep(c, w).log
    ensures AsksOutside(w, DoNextStep(c, w)) <==> !w.flags.hasClientId && w.flags.attempt < c.retryCount
  {
    hide LogFollows, ProcessAck, Forward, Since;
    var w' := DoNextStep(c, w);
    var w1 := w.(armed := false, flags := w.flags.(attempt := w.flags.attempt + 1));
    AckUnasked(w1, ServerUnavailable);
    ForwardUnasked(w1);
    if w.flags.attempt < c.retryCount && !w.flags.waitingForReconnect && !w.flags.hasWillMsg && !w.flags.hasWillTopic {
      assert w'.log == w.log + [WillTopicReq] && w'.log[..|w.log|] == w.log;
      assert w'.log[|w.log|].WillTopicReq?;
    } else {
      assert Unasked(w, w');
    }
  }

  lemma ConnectAsks(c: Config, w: World, clientId: string, withWill: bool, keepAlive: nat, clean: bool)
    requires Inv(w)
    ensures !AsksOutside(w, OnConnect(c, w, clientId, withWill, keepAlive, clean))
  {
    hide LogFollows, DoNextStep, Since;
    var id := if clientId == "" then c.defaultClientId else clientId;
    var w1 := Start(w, id, withWill, keepAlive, clean);
    StartKeeps(w, id, withWill, keepAlive, clean);
    NextStepAsks(c, w1);
    AsksLater(w, w1, DoNextStep(c, w1));
  }

  lemma WillTopicAsks(c: Config, w: World, topic: string, flags: nat)
    requires Inv(w)
    ensures !AsksOutside(w, OnWillTopic(c, w, topic, flags))
  {
    hide Inv, Core, DoNextStep, Since;
    var w1 := Say(w, GotWillTopic(topic, flags));
    TopicKeeps(w, topic, flags);
    if w.flags.hasClientId && !w.flags.hasWillMsg {
      var w2 := WithTopic(w1, topic, flags);
      QuietKeeps(w2, PingToBroker);
      var w3 := if topic != "" && w.sess.connStatus == Connected then Say(w2, PingToBroker) else w2;
      NextStepAsks(c, w3);
      AsksLater(w, w3, DoNextStep(c, w3));
    }
  }

  lemma WillMsgAsks(c: Config, w: World, msg: string)
    requires Inv(w)
    ensures !AsksOutside(w, OnWillMsg(c, w, msg))
  {
    hide Inv, Core, DoNextStep, Since;
    MsgKeeps(w, msg);
    if w.flags.hasWillTopic {
      var w1 := WithMsg(Say(w, GotWillMsg(msg)), msg);
      NextStepAsks(c, w1);
      AsksLater(w, w1, DoNextStep(c, w1));
    }
  }

  lemma PublishAsks(c: Config, w: World, noGwPublish: bool)
    requires Inv(w)
    ensures !AsksOutside(w, OnPublish(c, w, noGwPublish))
  {
    hide LogFollows, DoNextStep, Since;
    ClearKeeps(w);
    var w1 := ClearInternalState(w).(flags := Flags(0, true, true, true, false, true),
                                     req := Request(c.defaultClientId, NO_WILL, c.pubOnlyKeepAlive, true));
    SayKeeps(w1, Begin(PubOnly(c), w.sess.will));
    var w2 := Say(w1, Begin(PubOnly(c), w.sess.will));
    NextStepAsks(c, w2);
    assert Unasked(w, w2);
    AsksLater(w, w2, DoNextStep(c, w2));
  }

  lemma BrokerUpdatedAsks(c: Config, w: World, connected: bool)
    requires Inv(w)
    ensures !AsksOutside(w, OnBrokerUpdated(c, w, connected))
  {
    hide Core, DoNextStep, LogFollows, Since;
    CoreOf(w);
    Waiting(w);
    var w1 := w.(sess := w.sess.(brokerConnected := connected), flags := w.flags.(waitingForReconnect := false));
    CoreFrame(w, w1);
    NextStepAsks(c, w1);
    AsksLater(w, w1, DoNextStep(c, w1));
  }

  /** A client is asked for a will topic that no dialogue waits for exactly by a tick that finds no client id, with a
      retry left. */
  lemma TopicReqExactly(c: Config, w: World, e: Event)
    requires Inv(w)
    ensures AsksOutside(w, Step(c, w, e)) <==> e.Tick? && Orphaned(w) && w.flags.attempt < c.retryCount
  {
    hide Inv, OnConnect, OnWillTopic, OnWillMsg, OnPublish, OnBrokerUpdated, DoNextStep, ProcessAck, Since;
    match e
    case Connect(id, withWill, keepAlive, clean) => ConnectAsks(c, w, id, withWill, keepAlive, clean);
    case WillTopic(topic, flags) => WillTopicAsks(c, w, topic, flags);
    case WillMsg(msg) => WillMsgAsks(c, w, msg);
    case Publish(noGwPublish) => PublishAsks(c, w, noGwPublish);
    case Connack(code) => AckUnasked(w, code);
    case Tick =>
      CoreOf(w);
      Waiting(w);
      CoreFrame(w, w.(armed := false));
      NextStepAsks(c, w.(armed := false));
    case BrokerUpdated(connected) => BrokerUpdatedAsks(c, w, connected);
    case Others(_) =>
  }

  lemma {:induction false} ExecKeeps(c: Config, w: World, events: seq<Event>)
    requires Inv(w)
    ensures Inv(Exec(c, w, events))
    decreases |events|
  {
    if events != [] {
      StepKeeps(c, w, events[0]);
      ExecKeeps(c, Step(c, w, events[0]), events[1..]);
    }
  }

  /**
   * In every run, whatever the other operations do to the session: a will message implies a will topic
   * implies a client id, and CONNECT reaches the broker only after the will dialogue is complete or was
   * not required.
   */
  lemma ConnectRun(c: Config, sess: Session, events: seq<Event>)
    ensures var w := Exec(c, Initial(sess), events);
            && (w.flags.hasWillMsg ==> w.flags.hasWillTopic) && (w.flags.hasWillTopic ==> w.flags.hasClientId)
            && ConnectsFollow(w.log) && RequestsFollow(w.log) && ClearsFollow(w.log)
            && Reports(w.log) <= 1 && (Reports(w.log) == 1 <==> w.reported)
  {
    ExecKeeps(c, Initial(sess), events);
  }

  /**
   * A CONNACK is taken only after a finished dialogue.  An acceptance gives the session what the client
   * asked for, a refusal leaves it disconnected and without a client id; both end the dialogue.
   */
  lemma ConnackSettles(w: World, code: BrokerCode)
    requires Inv(w)
    ensures var w' := OnConnack(w, code);
            var p := Since(w.log);
            if !DialogueDone(p) then w' == w
            else
              && Since(w'.log) == Idle && w'.flags == NO_FLAGS
              && if code == BrokerAccepted
                 then w'.sess.connStatus == Connected
                      && Carries(Request(w'.sess.clientId, w'.sess.will, w'.sess.keepAlive, p.asked.clean), p)
                 else w'.sess.connStatus == Disconnected && w'.sess.clientId == ""
  {
    hide LogFollows, Since;
    AckKeeps(w, code);
  }

  /* What goes out, event by event */

  /** An answer ends the dialogue.  The client is told, unless it only publishes, and the application hears of a client
      that it did not know; the session gets what was asked for, or is left without client, will and keep alive. */
  lemma AckOutcome(w: World, code: BrokerCode)
    ensures var t := ProcessAck(w, code);
            var rc := match code
                      case BrokerAccepted => Accepted
                      case ServerUnavailable => Congestion
                      case Refused => NotSupported;
            var told := if w.flags.pubOnlyClient then [] else [ConnackToClient(rc)];
            var news := if rc == Accepted && !w.reported then [ClientReported(w.req.clientId)] else [];
            && t.log == w.log + told + news + [Cleared]
            && t.reported == (w.reported || rc == Accepted) && t.armed == (w.armed && !w.flags.pubOnlyClient)
            && t.sess == if rc == Accepted
                         then w.sess.(connStatus := Connected, clientId := w.req.clientId,
                                      keepAlive := w.req.keepAlive, will := w.req.will)
                         else w.sess.(connStatus := Disconnected, clientId := "", keepAlive := 0, will := NO_WILL)
  {
  }

  /** The next step without a retry left, while waiting for the broker, and in an unfinished dialogue. */
  lemma UnfinishedStep(c: Config, w: World)
    requires Core(w)
    ensures var t := DoNextStep(c, w);
            if c.retryCount <= w.flags.attempt then
              && t.log == w.log + [GaveUp] && !t.armed && t.flags == w.flags
              && t.req == w.req.(clientId := "") && t.sess == w.sess.(connStatus := Disconnected)
            else if w.flags.waitingForReconnect then
              t == Say(ProcessAck(w.(armed := false), ServerUnavailable), TermReq)
            else if !w.flags.hasWillMsg then
              && t.log == w.log + [if w.flags.hasWillTopic then WillMsgReq else WillTopicReq] && t.armed
              && t == w.(log := t.log, armed := true, flags := w.flags.(attempt := w.flags.attempt + 1))
            else true
  {
    hide LogFollows, Tied, Since;
    if w.flags.waitingForReconnect && w.flags.attempt < c.retryCount {
      SameAck(w.(armed := false), w.(armed := false, flags := w.flags.(attempt := w.flags.attempt + 1)),
              ServerUnavailable);
    }
  }

  /** The count of attempts does not matter to an answer. */
  lemma SameAck(w: World, w': World, code: BrokerCode)
    requires w' == w.(flags := w.flags.(attempt := w'.flags.attempt))
    ensures ProcessAck(w', code) == ProcessAck(w, code)
  {
  }

  /**
   * The next step of a finished dialogue.  A client id other than that of the session is refused.  What the session has
   * already is accepted at once, after a ping for a client that wakes up and the clearing of registrations for a clean
   * request.  Without a broker the answer is no; with one, a session that is up is torn down first, and otherwise the
   * request goes to the broker.
   */
  lemma FinishedStep(c: Config, w: World)
    requires w.flags.hasWillMsg && w.flags.attempt < c.retryCount && !w.flags.waitingForReconnect
    ensures var t := DoNextStep(c, w);
            var u := w.(armed := false);
            var has := && w.sess.clientId == w.req.clientId && w.sess.will.topic == w.req.will.topic
                       && (w.req.will.topic == "" || w.sess.will == w.req.will)
                       && (w.sess.pendingClientDisconnect || w.sess.keepAlive == w.req.keepAlive);
            if w.sess.clientId != "" && w.sess.clientId != w.req.clientId then t == ProcessAck(u, Refused)
            else if has then
              var pings := !w.sess.pendingClientDisconnect && w.sess.connStatus == Asleep && w.sess.brokerConnected;
              var clears := !w.sess.pendingClientDisconnect && w.req.clean;
              var first := (if pings then [PingToBroker] else []) + (if clears then [RegistrationsCleared] else []);
              t == ProcessAck(u.(log := w.log + first), BrokerAccepted)
            else if !w.sess.brokerConnected then t == ProcessAck(u, ServerUnavailable)
            else if w.sess.connStatus != Disconnected then
              && t.log == w.log + [DisconnectToBroker, ReconnectReq] && t.armed && t.flags.waitingForReconnect
              && t.req == w.req && t.sess == w.sess
            else t.log == w.log + [ConnectToBroker(w.req)] && t.armed == w.flags.pubOnlyClient
                 && t.flags.hasWillMsg && t.req == w.req && t.sess == w.sess
  {
    hide ProcessAck;
    var u := w.(armed := false);
    var u1 := u.(flags := w.flags.(attempt := w.flags.attempt + 1));
    SameAck(u, u1, Refused);
    SameAck(u, u1, ServerUnavailable);
    FinishedRefresh(w, u, u1);
  }

  lemma FinishedRefresh(w: World, u: World, u1: World)
    requires u == w.(armed := false) && u1 == u.(flags := w.flags.(attempt := w.flags.attempt + 1))
    ensures var pings := !w.sess.pendingClientDisconnect && w.sess.connStatus == Asleep && w.sess.brokerConnected;
            var clears := !w.sess.pendingClientDisconnect && w.req.clean;
            var first := (if pings then [PingToBroker] else []) + (if clears then [RegistrationsCleared] else []);
            ProcessAck(Refresh(u1), BrokerAccepted) == ProcessAck(u.(log := w.log + first), BrokerAccepted)
  {
    hide ProcessAck;
    var log := Refresh(u1).log;
    assert Refresh(u1) == u1.(log := log);
    var pings := !w.sess.pendingClientDisconnect && w.sess.connStatus == Asleep && w.sess.brokerConnected;
    var clears := !w.sess.pendingClientDisconnect && w.req.clean;
    assert log == w.log + ((if pings then [PingToBroker] else []) + (if clears then [RegistrationsCleared] else []));
    SameAck(u.(log := log), u1.(log := log), BrokerAccepted);
  }

  /** An event after which no step follows: a CONNECT under another client id ends the session; a dialogue that finds no
      broker waits for it; a broker that goes while it is waited for takes the session with it. */
  lemma UnheardOutcome(c: Config, w: World, e: Event)
    requires Heard(c, w, e).None? && !e.Connack? && !e.Others?
    ensures var t := Step(c, w, e);
            match e
            case Connect(clientId, withWill, keepAlive, clean) =>
              var id := if clientId == "" then c.defaultClientId else clientId;
              if w.sess.connStatus != Disconnected && id != w.sess.clientId then
                && t.log == w.log + [DisconnectToClient, TermReq]
                && t == w.(log := t.log, sess := w.sess.(connStatus := Disconnected))
              else t.log == w.log + [Begin(Asked(id, withWill, keepAlive, clean), w.sess.will)]
                   && t.armed && t.flags.waitingForReconnect && t.flags.hasClientId && t.sess == w.sess
            case WillTopic(topic, flags) => t == Say(w, GotWillTopic(topic, flags))
            case WillMsg(msg) => t == Say(w, GotWillMsg(msg))
            case Publish(noGwPublish) =>
              if t == w then !noGwPublish || w.sess.connStatus != Disconnected || w.sess.pendingClientDisconnect
                             || w.sess.clientId != "" || w.req.clientId != ""
              else t.log == w.log + [Cleared, Begin(PubOnly(c), w.sess.will)] && t.armed
                   && t.flags.waitingForReconnect && t.flags.pubOnlyClient && t.sess == w.sess
            case Tick => t == w
            case BrokerUpdated(connected) =>
              t == w.(sess := if connected || !w.flags.waitingForReconnect
                              then w.sess.(brokerConnected := connected)
                              else w.sess.(brokerConnected := false, connStatus := Disconnected, keepAlive := 0,
                                           will := NO_WILL))
  {
    hide DoNextStep, ProcessAck;
  }

  /* What the code does not keep */

  /** Registrations were cleared between `w` and `w'`. */
  ghost predicate Clears(w: World, w': World) {
    exists i :: |w.log| <= i < |w'.log| && w'.log[i].RegistrationsCleared?
  }

  lemma AckClears(w: World, code: BrokerCode)
    ensures w.log <= ProcessAck(w, code).log && !Clears(w, ProcessAck(w, code))
  {
  }

  lemma ClearsLater(w: World, u: World, w': World)
    requires w.log <= u.log <= w'.log
    ensures Clears(w, w') <==> Clears(w, u) || Clears(u, w')
  {
    forall i | |w.log| <= i < |u.log| ensures w'.log[i] == u.log[i] {
    }
  }

  lemma RefreshClears(w: World)
    ensures w.log <= Refresh(w).log
    ensures Clears(w, Refresh(w)) <==> w.req.clean && !w.sess.pendingClientDisconnect
  {
    if w.req.clean && !w.sess.pendingClientDisconnect {
      assert Refresh(w).log[|Refresh(w).log| - 1].RegistrationsCleared?;
    }
  }

  lemma ForwardClears(w: World)
    ensures w.log <= Forward(w).log
    ensures Clears(w, Forward(w)) <==> AlreadyConnected(w) && !w.sess.pendingClientDisconnect && w.req.clean
  {
    hide ProcessAck, Refresh;
    AckClears(w, Refused);
    AckClears(w, ServerUnavailable);
    RefreshClears(w);
    AckClears(Refresh(w), BrokerAccepted);
    ClearsLater(w, Refresh(w), ProcessAck(Refresh(w), BrokerAccepted));
  }

  /** The next step accepts a clean request without asking the broker. */
  predicate AcceptsClean(c: Config, w: World) {
    && w.flags.attempt < c.retryCount && !w.flags.waitingForReconnect && w.flags.hasWillMsg
    && AlreadyConnected(w) && !w.sess.pendingClientDisconnect && w.req.clean
  }

  lemma NextStepClears(c: Config, w: World)
    ensures w.log <= DoNextStep(c, w).log
    ensures Clears(w, DoNextStep(c, w)) <==> AcceptsClean(c, w)
  {
    hide ProcessAck, Forward;
    var w1 := w.(armed := false, flags := w.flags.(attempt := w.flags.attempt + 1));
    AckClears(w1, ServerUnavailable);
    ForwardClears(w1);
  }

  /** What the operation knows once it has taken in an event and goes on to the next step, if it does. */
  function Heard(c: Config, w: World, e: Event): Option<World> {
    match e
    case Connect(clientId, withWill, keepAlive, clean) =>
      var id := if clientId == "" then c.defaultClientId else clientId;
      var w1 := Start(w, id, withWill, keepAlive, clean);
      if w.sess.connStatus != Disconnected && id != w.sess.clientId then None
      else if w.sess.connStatus == Disconnected && !w.sess.brokerConnected && !w1.flags.waitingForReconnect
              && !w.sess.pendingClientDisconnect then None
      else Some(w1)
    case WillTopic(topic, flags) =>
      var w1 := WithTopic(Say(w, GotWillTopic(topic, flags)), topic, flags);
      if !w.flags.hasClientId || w.flags.hasWillMsg then None
      else Some(if topic != "" && w.sess.connStatus == Connected then Say(w1, PingToBroker) else w1)
    case WillMsg(msg) => if w.flags.hasWillTopic then Some(WithMsg(Say(w, GotWillMsg(msg)), msg)) else None
    case Publish(noGwPublish) =>
      if w.sess.connStatus != Disconnected || w.sess.pendingClientDisconnect || w.sess.clientId != ""
         || w.req.clientId != "" || !noGwPublish || !w.sess.brokerConnected then None
      else
        Some(Say(ClearInternalState(w).(flags := Flags(0, true, true, true, false, true),
                                        req := Request(c.defaultClientId, NO_WILL, c.pubOnlyKeepAlive, true)),
                 Begin(PubOnly(c), w.sess.will)))
    case Tick => if w.armed then Some(w.(armed := false)) else None
    case BrokerUpdated(connected) =>
      if w.flags.waitingForReconnect && connected
      then Some(w.(sess := w.sess.(brokerConnected := true), flags := w.flags.(waitingForReconnect := false))) else None
    case Connack(_) => None
    case Others(_) => None
  }

  lemma HeardSteps(c: Config, w: World, e: Event)
    requires Heard(c, w, e).Some?
    ensures Step(c, w, e) == DoNextStep(c, Heard(c, w, e).value)
  {
    hide DoNextStep;
  }

  lemma HeardClears(c: Config, w: World, e: Event)
    requires Heard(c, w, e).Some?
    ensures w.log <= Heard(c, w, e).value.log && !Clears(w, Heard(c, w, e).value)
  {
  }

  lemma UnheardClears(c: Config, w: World, e: Event)
    requires Heard(c, w, e).None?
    ensures !Clears(w, Step(c, w, e))
  {
    hide DoNextStep, ProcessAck;
    if e.Connack? {
      AckClears(w, e.code);
    }
  }

  /** Whatever happens, the registrations are cleared exactly when the operation then knows of a clean request that it
      can accept without asking the broker. */
  lemma ClearsExactly(c: Config, w: World, e: Event)
    ensures Clears(w, Step(c, w, e)) <==> Heard(c, w, e).Some? && AcceptsClean(c, Heard(c, w, e).value)
  {
    hide Step, DoNextStep, Heard, AcceptsClean, Clears;
    if Heard(c, w, e).None? {
      UnheardClears(c, w, e);
    } else {
      var w1 := Heard(c, w, e).value;
      HeardSteps(c, w, e);
      HeardClears(c, w, e);
      NextStepClears(c, w1);
      ClearsLater(w, w1, DoNextStep(c, w1));
    }
  }

  /** The clean flag is gone by the time an accepted CONNACK looks at it. */
  lemma ConnackClearsNothing(w: World, code: BrokerCode)
    ensures w.log <= OnConnack(w, code).log && !Clears(w, OnConnack(w, code))
  {
    hide ProcessAck;
    AckClears(w, code);
  }

  /** A clean session that the broker accepts: the registrations of the session before it stay. */
  lemma CleanSessionKeepsRegistrations()
    ensures var sess := Session(Disconnected, "", true, false, 0, NO_WILL);
            var w := Exec(Config(3, "gw", 0), Initial(sess), [Connect("a", false, 10, true), Connack(BrokerAccepted)]);
            w.log == [Begin(Asked("a", false, 10, true), NO_WILL), ConnectToBroker(Request("a", NO_WILL, 10, true)),
                      ConnackToClient(Accepted), ClientReported("a"), Cleared]
  {
    var c := Config(3, "gw", 0);
    var w0 := Initial(Session(Disconnected, "", true, false, 0, NO_WILL));
    var w1 := Step(c, w0, Connect("a", false, 10, true));
    assert w1.log == [Begin(Asked("a", false, 10, true), NO_WILL), ConnectToBroker(Request("a", NO_WILL, 10, true))];
    var w2 := Step(c, w1, Connack(BrokerAccepted));
    assert w2.log == w1.log + [ConnackToClient(Accepted), ClientReported("a"), Cleared];
    ExecStep(c, w0, [Connect("a", false, 10, true), Connack(BrokerAccepted)]);
    ExecStep(c, w1, [Connack(BrokerAccepted)]);
  }

  lemma ExecStep(c: Config, w: World, events: seq<Event>)
    requires events != []
    ensures Exec(c, w, events) == Exec(c, Step(c, w, events[0]), events[1..])
  {
  }

  /** A WILLMSG that nobody asked for replaces the message of the will that the client kept. */
  lemma StrayWillMsgReplaces()
    ensures var sess := Session(Disconnected, "", true, false, 0, WillInfo("t", "old", 0));
            var w := Exec(Config(3, "gw", 0), Initial(sess), [Connect("a", false, 10, false), WillMsg("new")]);
            var asked := Asked("a", false, 10, false);
            w.log == [Begin(asked, sess.will), ConnectToBroker(Request("a", WillInfo("t", "old", 0), 10, false)),
                      GotWillMsg("new"), ConnectToBroker(Request("a", WillInfo("t", "new", 0), 10, false))]
  {
    var c := Config(3, "gw", 0);
    var w0 := Initial(Session(Disconnected, "", true, false, 0, WillInfo("t", "old", 0)));
    var w1 := Step(c, w0, Connect("a", false, 10, false));
    assert w1.log == [Begin(Asked("a", false, 10, false), w0.sess.will),
                      ConnectToBroker(Request("a", WillInfo("t", "old", 0), 10, false))];
    var w2 := Step(c, w1, WillMsg("new"));
    assert w2.log == w1.log + [GotWillMsg("new"),
                               ConnectToBroker(Request("a", WillInfo("t", "new", 0), 10, false))];
    ExecStep(c, w0, [Connect("a", false, 10, false), WillMsg("new")]);
    ExecStep(c, w1, [WillMsg("new")]);
  }

  /** Giving up forgets the client id but not the dialogue: a late WILLTOPIC sends a CONNECT with an empty id. */
  lemma LateWillTopicConnectsWithoutId(c: Config, w: World)
    requires Inv(w) && w.flags.hasClientId && !w.flags.hasWillMsg && Since(w.log).gaveUp && Since(w.log).asked.id != ""
    requires 0 < c.retryCount && !w.flags.waitingForReconnect
    requires w.sess.brokerConnected && !w.sess.pendingClientDisconnect
    requires w.sess.connStatus == Disconnected && w.sess.clientId == "" && w.sess.keepAlive != w.req.keepAlive
    ensures var w' := OnWillTopic(c, w, "", 0);
            && w'.log == w.log + [GotWillTopic("", 0), ConnectToBroker(w.req.(will := WillInfo("", w.req.will.msg, 0)))]
            && w.req.clientId == ""
  {
    var w1 := WithTopic(Say(w, GotWillTopic("", 0)), "", 0);
    assert w1.req.clientId == "";
    assert OnWillTopic(c, w, "", 0) == DoNextStep(c, w1);
    var w2 := w1.(armed := false, flags := w1.flags.(attempt := 1));
    assert DoNextStep(c, w1) == Forward(w2);
    assert !AlreadyConnected(w2);
  }

  /** Such a state is reached when a client announces a will and then stays silent. */
  lemma SilentClientGivenUp()
    ensures var w := Exec(Config(1, "gw", 0), Initial(Session(Disconnected, "", true, false, 0, NO_WILL)),
                          [Connect("a", true, 10, true), Tick]);
            && w.flags.hasClientId && !w.flags.hasWillMsg && !w.flags.waitingForReconnect
            && Since(w.log) == Dialogue(Asked("a", true, 10, true), NO_WILL, false, false, false, true)
            && w.sess == Session(Disconnected, "", true, false, 0, NO_WILL) && w.req.keepAlive == 10
  {
    var c := Config(1, "gw", 0);
    var w0 := Initial(Session(Disconnected, "", true, false, 0, NO_WILL));
    var w1 := Step(c, w0, Connect("a", true, 10, true));
    assert w1.log == [Begin(Asked("a", true, 10, true), NO_WILL), WillTopicReq] && w1.armed;
    var w2 := Step(c, w1, Tick);
    assert w2.log == [Begin(Asked("a", true, 10, true), NO_WILL), WillTopicReq, GaveUp];
    ExecStep(c, w0, [Connect("a", true, 10, true), Tick]);
    ExecStep(c, w1, [Tick]);
    assert w2.log[..2] == [Begin(Asked("a", true, 10, true), NO_WILL), WillTopicReq];
    assert w2.log[..2][..1] == [Begin(Asked("a", true, 10, true), NO_WILL)];
    assert w2.log[..2][..1][..0] == [];
  }

  /** A late CONNACK during a reconnect: the next tick asks a client without a dialogue for its will topic. */
  lemma LateConnackOrphans()
    ensures var sess := Session(Connected, "a", true, false, 5, NO_WILL);
            var events := [Connect("a", false, 10, true), Connack(BrokerAccepted), Tick];
            var w := Exec(Config(3, "gw", 0), Initial(sess), events);
            w.log == [Begin(Asked("a", false, 10, true), NO_WILL), DisconnectToBroker, ReconnectReq,
                      ConnackToClient(Accepted), ClientReported("a"), Cleared, WillTopicReq]
  {
    var c := Config(3, "gw", 0);
    var w0 := Initial(Session(Connected, "a", true, false, 5, NO_WILL));
    var w1 := Step(c, w0, Connect("a", false, 10, true));
    assert w1.log == [Begin(Asked("a", false, 10, true), NO_WILL), DisconnectToBroker, ReconnectReq] && w1.armed;
    var w2 := Step(c, w1, Connack(BrokerAccepted));
    assert w2.log == w1.log + [ConnackToClient(Accepted), ClientReported("a"), Cleared] && w2.armed;
    var w3 := Step(c, w2, Tick);
    assert w3.log == w2.log + [WillTopicReq];
    ExecStep(c, w0, [Connect("a", false, 10, true), Connack(BrokerAccepted), Tick]);
    ExecStep(c, w1, [Connack(BrokerAccepted), Tick]);
    ExecStep(c, w2, [Tick]);
  }

  /* The operation */

  class ConnectOp {
    const cfg: Config
    var flags: Flags
    var req: Request
    var armed: bool
    var sess: Session
    var reported: bool
    ghost var log: seq<Item>

    ghost function State(): World
      reads this
    {
      World(flags, req, armed, sess, reported, log)
    }

    constructor (cfg: Config, sess: Session)
      ensures this.cfg == cfg && State() == Initial(sess) && Inv(State())
    {
      this.cfg, this.sess := cfg, sess;
      flags, req, armed, reported, log := NO_FLAGS, NO_REQUEST, false, false, [];
    }

    ghost method Note(item: Item)
      modifies `log
      ensures State() == Say(old(State()), item)
    {
      log := log + [item];
    }

    method ClearInternal()
      modifies `flags, `req, `log
      ensures State() == ClearInternalState(old(State()))
    {
      flags, req := NO_FLAGS, NO_REQUEST;
      Note(Cleared);
    }

    method ClearInfo(clearClientId: bool)
      modifies `sess
      ensures State() == ClearConnectionInfo(old(State()), clearClientId)
    {
      if clearClientId {
        sess := sess.(clientId := "");
      }
      sess := sess.(connStatus := Disconnected, keepAlive := 0, will := NO_WILL);
    }

    method Ack(code: BrokerCode)
      modifies this
      ensures State() == ProcessAck(old(State()), code)
    {
      if !flags.pubOnlyClient {
        Note(ConnackToClient(ToReturnCode(code)));
      } else {
        armed := false;
      }
      if ToReturnCode(code) != Accepted {
        ClearInfo(true);
        ClearInternal();
        return;
      }
      if !reported {
        reported := true;
        Note(ClientReported(req.clientId));
      }
      sess := sess.(clientId := req.clientId, connStatus := Connected, keepAlive := req.keepAlive, will := req.will);
      ClearInternal();
      // Registrations would be cleared here for a clean request, but the request is gone.
      assert !req.clean;
    }

    method ForwardOrAnswer()
      modifies this
      ensures State() == Forward(old(State()))
    {
      hide ProcessAck;
      if sess.clientId != "" && sess.clientId != req.clientId {
        Ack(Refused);
        return;
      }
      if AlreadyConnected(World(flags, req, armed, sess, reported, [])) {
        if !sess.pendingClientDisconnect {
          if sess.connStatus == Asleep && sess.brokerConnected {
            Note(PingToBroker);
          }
          if req.clean {
            Note(RegistrationsCleared);
          }
        }
        Ack(BrokerAccepted);
        return;
      }
      if !sess.brokerConnected {
        Ack(ServerUnavailable);
        return;
      }
      if sess.connStatus != Disconnected {
        Note(DisconnectToBroker);
        flags := flags.(waitingForReconnect := true);
        armed := true;
        Note(ReconnectReq);
        return;
      }
      Note(ConnectToBroker(req));
      armed := flags.pubOnlyClient;
    }

    method NextStep()
      modifies this
      ensures State() == DoNextStep(cfg, old(State()))
    {
      hide ProcessAck, Forward;
      armed := false;
      if cfg.retryCount <= flags.attempt {
        req := req.(clientId := "");
        sess := sess.(connStatus := Disconnected);
        Note(GaveUp);
        return;
      }
      flags := flags.(attempt := flags.attempt + 1);
      if flags.waitingForReconnect {
        Ack(ServerUnavailable);
        Note(TermReq);
        return;
      }
      if flags.hasWillMsg {
        ForwardOrAnswer();
        return;
      }
      if flags.hasWillTopic {
        Note(WillMsgReq);
      } else {
        Note(WillTopicReq);
      }
      armed := true;
    }

    method HandleConnect(clientId: string, withWill: bool, keepAlive: nat, clean: bool)
      modifies this
      ensures State() == OnConnect(cfg, old(State()), clientId, withWill, keepAlive, clean)
      ensures old(Inv(State())) ==> Inv(State())
    {
      hide DoNextStep, Inv;
      if Inv(State()) {
        ConnectKeeps(cfg, State(), clientId, withWill, keepAlive, clean);
      }
      var id := if clientId == "" then cfg.defaultClientId else clientId;
      if sess.connStatus != Disconnected && id != sess.clientId {
        Note(DisconnectToClient);
        sess := sess.(connStatus := Disconnected);
        Note(TermReq);
        return;
      }
      Take(id, withWill, keepAlive, clean);
      if sess.connStatus == Disconnected && !sess.brokerConnected && !flags.waitingForReconnect
         && !sess.pendingClientDisconnect {
        flags := flags.(waitingForReconnect := true);
        armed := true;
        return;
      }
      NextStep();
    }

    method Take(id: string, withWill: bool, keepAlive: nat, clean: bool)
      modifies `flags, `req, `log
      ensures State() == Start(old(State()), id, withWill, keepAlive, clean)
    {
      if flags.hasClientId {
        flags := NO_FLAGS;
      }
      flags := flags.(hasClientId := true);
      req := req.(clientId := id, keepAlive := keepAlive, clean := clean);
      if !withWill {
        flags := flags.(hasWillTopic := true, hasWillMsg := true);
        req := req.(will := if clean then NO_WILL else sess.will);
      }
      Note(Begin(Asked(id, withWill, keepAlive, clean), sess.will));
    }

    method HandleWillTopic(topic: string, willFlags: nat)
      modifies this
      ensures State() == OnWillTopic(cfg, old(State()), topic, willFlags)
      ensures old(Inv(State())) ==> Inv(State())
    {
      hide DoNextStep, Inv;
      if Inv(State()) {
        WillTopicKeeps(cfg, State(), topic, willFlags);
      }
      Note(GotWillTopic(topic, willFlags));
      if !flags.hasClientId || flags.hasWillMsg {
        return;
      }
      flags := flags.(hasWillTopic := true, attempt := 0);
      req := req.(will := req.will.(topic := topic, flags := willFlags));
      if topic == "" {
        flags := flags.(hasWillMsg := true);
      } else if sess.connStatus == Connected {
        Note(PingToBroker);
      }
      NextStep();
    }

    method HandleWillMsg(msg: string)
      modifies this
      ensures State() == OnWillMsg(cfg, old(State()), msg)
      ensures old(Inv(State())) ==> Inv(State())
    {
      hide DoNextStep, Inv;
      if Inv(State()) {
        WillMsgKeeps(cfg, State(), msg);
      }
      Note(GotWillMsg(msg));
      if !flags.hasWillTopic {
        return;
      }
      flags := flags.(hasWillMsg := true, attempt := 0);
      req := req.(will := req.will.(msg := msg));
      NextStep();
    }

    method HandlePublish(noGwPublish: bool)
      modifies this
      ensures State() == OnPublish(cfg, old(State()), noGwPublish)
      ensures old(Inv(State())) ==> Inv(State())
    {
      hide DoNextStep, Inv;
      if Inv(State()) {
        PublishKeeps(cfg, State(), noGwPublish);
      }
      if sess.connStatus != Disconnected || sess.pendingClientDisconnect || sess.clientId != "" || req.clientId != "" {
        return;
      }
      if !noGwPublish {
        return;
      }
      ClearInternal();
      req := Request(cfg.defaultClientId, NO_WILL, cfg.pubOnlyKeepAlive, true);
      flags := Flags(0, true, true, true, false, true);
      Note(Begin(PubOnly(cfg), sess.will));
      if sess.brokerConnected {
        NextStep();
        return;
      }
      flags := flags.(waitingForReconnect := true);
      armed := true;
    }

    method HandleConnack(code: BrokerCode)
      modifies this
      ensures State() == OnConnack(old(State()), code)
      ensures old(Inv(State())) ==> Inv(State())
    {
      hide ProcessAck, Inv;
      if Inv(State()) {
        ConnackKeeps(State(), code);
      }
      if !flags.hasWillMsg {
        return;
      }
      Ack(code);
    }

    method TickImpl()
      requires armed
      modifies this
      ensures State() == OnTick(cfg, old(State()))
      ensures old(Inv(State())) ==> Inv(State())
    {
      hide DoNextStep, Inv;
      if Inv(State()) {
        TickKeeps(cfg, State());
      }
      armed := false;
      NextStep();
    }

    method BrokerConnectionUpdated(connected: bool)
      modifies this
      ensures State() == OnBrokerUpdated(cfg, old(State()), connected)
      ensures old(Inv(State())) ==> Inv(State())
    {
      hide DoNextStep, Inv;
      if Inv(State()) {
        BrokerUpdatedKeeps(cfg, State(), connected);
      }
      sess := sess.(brokerConnected := connected);
      if !flags.waitingForReconnect {
        return;
      }
      if !connected {
        ClearInfo(false);
        return;
      }
      flags := flags.(waitingForReconnect := false);
      NextStep();
    }
  }
}
