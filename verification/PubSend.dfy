/** The gateway's `PubSend` session op: it takes publications from the broker queue one at a time,
    registers the topic with the client when needed, and retransmits until acknowledged.

    The op is four mutually recursive methods (newSends, sendCurrent, doSend, checkSend) with a loop that
    re-enters itself. The functions below give the meaning as one flat loop, `Drain`, followed by one
    `Tail`; the class shows that the re-entrant code computes exactly that. */
module PubSend {
  import opened Protocol

  /** A queued publication. `serial` is the identity of the heap object: its number in enqueue order. */
  datatype Pub = Pub(serial: nat, topic: string, data: seq<bv8>, qos: Qos, retain: bool, dup: bool)

  datatype TopicInfo = TopicInfo(topicId: nat, kind: TopicIdKind, isNew: bool)

  /** Messages to the client. The QoS, retain flag and payload of a PUBLISH are those of `pub`;
      the topic name of a REGISTER is that of `pub`. */
  datatype ToClient =
    | Register(topicId: nat, msgId: nat, pub: Pub)
    | Publish(topicId: nat, kind: TopicIdKind, msgId: nat, dup: bool, pub: Pub)
    | Pubrel(msgId: nat)
    | Disconnect
    | Pingresp

  /** What the topic registry answers: any function of the allocation number and the topic. Every call
      of the registry is followed by a message id allocation, so a run can meet any answers at all. */
  type Resolver = (nat, string) -> TopicInfo

  /** `narrow` is true of the code: ids are 16 bits wide. Without it the ids are the allocation numbers they are
      cut from, which is how `QosTwo` tells one use of an id from the next. */
  datatype Config = Config(retryCount: nat, resolve: Resolver, narrow: bool)

  /** Members of the op that belong to the current publication. */
  datatype Flight = Flight(attempt: nat, info: TopicInfo, msgId: nat, registerCount: nat, registered: bool,
                           acked: bool)

  /** Session state shared with the other ops. */
  datatype Session = Session(queue: seq<Pub>, status: ConnStatus, pendingDisconnect: bool)

  /** The op and, in `sent` and `retired`, the history of its effects. `nextMsgId` is not reduced modulo
      2^32: only its low 16 bits are ever used. */
  datatype Sender = Sender(curr: Option<Pub>, fl: Flight, nextMsgId: nat, ping: bool, disconnectSent: bool,
                           armed: bool, ses: Session, sent: seq<ToClient>, retired: seq<Pub>)

  const NO_FLIGHT := Flight(0, TopicInfo(0, Normal, false), 0, 0, false, false)

  function Init(): Sender {
    Sender(None, NO_FLIGHT, 0, false, false, false, Session([], Disconnected, false), [], [])
  }

  /** The narrowing conversion to a 16 bit message id. */
  function Low16(n: nat): nat {
    n % ID_SPACE
  }

  function MsgId(cfg: Config, n: nat): nat {
    if cfg.narrow then Low16(n) else n
  }

  /** Id 0 means none. */
  predicate NoId(cfg: Config, id: nat) {
    if cfg.narrow then id == 0 else Low16(id) == 0
  }

  /** `allocMsgId` for the current publication. */
  function TakeId(cfg: Config, s: Sender): Sender {
    s.(nextMsgId := s.nextMsgId + 1, fl := s.fl.(msgId := MsgId(cfg, s.nextMsgId + 1)))
  }

  function Retire(s: Sender): Sender
    requires s.curr.Some?
  {
    s.(curr := None, retired := s.retired + [s.curr.value])
  }

  function Emit(s: Sender, m: ToClient): Sender {
    s.(sent := s.sent + [m])
  }

  predicate NeedsRegister(fl: Flight) {
    fl.info.isNew && fl.info.kind == Normal && !fl.registered
  }

  /** A PUBLISH that will be acknowledged needs an id other than 0. */
  function WithId(cfg: Config, s: Sender): Sender {
    if NoId(cfg, s.fl.msgId) then TakeId(cfg, s) else s
  }

  function PublishMsg(s: Sender): ToClient
    requires s.curr.Some?
  {
    var id := if s.curr.value.qos == AtMostOnce then 0 else s.fl.msgId;
    Publish(s.fl.info.topicId, s.fl.info.kind, id, s.curr.value.dup || 1 < s.fl.attempt, s.curr.value)
  }

  function AskRegister(cfg: Config, s: Sender): Sender
    requires s.curr.Some?
  {
    var u := TakeId(cfg, s);
    Emit(u, Register(u.fl.info.topicId, u.fl.msgId, u.curr.value)).(armed := true)
  }

  function SendOnce(cfg: Config, s: Sender): Sender
    requires s.curr.Some?
  {
    if s.curr.value.qos == AtMostOnce then Retire(Emit(s, PublishMsg(s)))
    else
      var u := WithId(cfg, s);
      Emit(u, PublishMsg(u)).(armed := true)
  }

  /** One transmission of the current publication, or its retirement, without what follows a retirement. */
  function Attempt(cfg: Config, s: Sender): Sender
    requires s.curr.Some?
  {
    var tried := s.(fl := s.fl.(attempt := s.fl.attempt + 1));
    if cfg.retryCount <= s.fl.attempt then Retire(s)
    else if !NeedsRegister(s.fl) then SendOnce(cfg, tried)
    else if cfg.retryCount <= s.fl.registerCount then Retire(tried)
    else AskRegister(cfg, tried)
  }

  /** Resolves the topic of the current publication and starts a fresh series of attempts. */
  function Load(cfg: Config, s: Sender): Sender
    requires s.curr.Some?
  {
    var info := cfg.resolve(s.nextMsgId, s.curr.value.topic);
    TakeId(cfg, s.(fl := Flight(0, info, 0, s.fl.registerCount, false, false)))
  }

  function Pop(s: Sender): Sender
    requires s.ses.queue != []
  {
    s.(curr := Some(s.ses.queue[0]), ses := s.ses.(queue := s.ses.queue[1..]), fl := s.fl.(registerCount := 0))
  }

  /** One turn of the flat loop: take the next publication and transmit it once. */
  function Start(cfg: Config, s: Sender): Sender
    requires s.ses.queue != []
  {
    Attempt(cfg, Load(cfg, Pop(s)))
  }

  /** The flat loop: start queued publications until one has to wait for the client. */
  function Drain(cfg: Config, s: Sender): Sender
    decreases |s.ses.queue|
  {
    if s.ses.queue != [] && s.curr.None? then Drain(cfg, Start(cfg, s)) else s
  }

  /** What follows once the broker queue is empty. */
  function Tail(s: Sender): Sender {
    if s.ses.queue != [] then s
    else if s.ses.pendingDisconnect then
      if s.disconnectSent then s else Emit(s, Disconnect).(disconnectSent := true)
    else if s.ping then Emit(s, Pingresp).(ping := false)
    else s
  }

  predicate MayStart(s: Sender) {
    && s.curr.None?
    && (|| (s.ses.status == Asleep && s.ping)
        || (s.ses.status == Connected && (s.ses.queue != [] || s.ses.pendingDisconnect)))
  }

  function Check(cfg: Config, s: Sender): Sender {
    if MayStart(s) then Tail(Drain(cfg, s.(armed := false))) else s
  }

  /** An attempt and, if it retires the publication, the start of the next ones. */
  function DoSend(cfg: Config, s: Sender): Sender
    requires s.curr.Some?
  {
    var s1 := Attempt(cfg, s);
    if s1.curr.None? then Check(cfg, s1) else s1
  }

  /* Handlers */

  function OnTick(cfg: Config, s: Sender): Sender {
    var s := s.(armed := false);
    if s.curr.None? then Check(cfg, s)
    else if !s.fl.acked then DoSend(cfg, s)
    else if cfg.retryCount <= s.fl.attempt then Check(cfg, Retire(s))
    else Emit(s, Pubrel(s.fl.msgId)).(fl := s.fl.(attempt := s.fl.attempt + 1), armed := true)
  }

  /** The client accepted the registration: a new id and a new series of attempts. */
  function Registered(cfg: Config, s: Sender): Sender {
    TakeId(cfg, s.(armed := false, fl := s.fl.(attempt := 0, registered := true,
                                               registerCount := s.fl.registerCount + 1)))
  }

  function OnRegack(cfg: Config, s: Sender, topicId: nat, msgId: nat, rc: ReturnCode): Sender {
    if s.curr.None? || topicId != s.fl.info.topicId || msgId != s.fl.msgId then s
    else if rc != Accepted then Check(cfg, Retire(s.(armed := false)))
    else DoSend(cfg, Registered(cfg, s))
  }

  function OnPuback(cfg: Config, s: Sender, topicId: nat, msgId: nat, rc: ReturnCode): Sender {
    if s.curr.None? || topicId != s.fl.info.topicId || msgId != s.fl.msgId then s
    else if rc == Accepted && s.curr.value.qos == ExactlyOnce then s
    else if rc == InvalidTopicId then DoSend(cfg, Load(cfg, s.(armed := false)))
    else Check(cfg, Retire(s.(armed := false)))
  }

  function OnPubrec(s: Sender, msgId: nat): Sender {
    if s.curr.None? || msgId != s.fl.msgId then s
    else Emit(s, Pubrel(s.fl.msgId)).(fl := s.fl.(acked := true, attempt := 0), armed := true)
  }

  function OnPubcomp(cfg: Config, s: Sender, msgId: nat): Sender {
    if s.curr.None? || msgId != s.fl.msgId then s
    else Check(cfg, Retire(s.(armed := false)))
  }

  function OnPingreq(cfg: Config, s: Sender, sameClient: bool): Sender {
    if s.ses.status != Asleep || !sameClient then s
    else Check(cfg, s.(ping := true))
  }

  /* Facts about the flat loop */

  /** Once drained, the tail changes neither the queue nor the current publication, and running the
      whole loop again changes nothing. */
  lemma AgainIsIdle(cfg: Config, s: Sender)
    requires s.ses.queue == [] || s.curr.Some?
    ensures Tail(Drain(cfg, Tail(s))) == Tail(s)
  {
  }

  lemma IdleDrain(cfg: Config, s: Sender)
    ensures s.ses.queue == [] || s.curr.Some? ==> Drain(cfg, s) == s
  {
  }

  /** One attempt from `s` to `t`: a retirement, or one message about the current publication. */
  ghost predicate Tried(s: Sender, t: Sender)
    requires s.curr.Some?
  {
    && t.ses == s.ses && t.ping == s.ping && t.disconnectSent == s.disconnectSent && t.fl.acked == s.fl.acked
    && (t.sent == s.sent || (|t.sent| == |s.sent| + 1 && t.sent == s.sent + [t.sent[|s.sent|]]))
    && if t.curr.None? then t.retired == s.retired + [s.curr.value] && t.armed == s.armed
       else t.curr == s.curr && t.retired == s.retired && t.sent != s.sent
  }

  lemma WithIdFrame(cfg: Config, s: Sender)
    ensures var t := WithId(cfg, s);
            t == s.(fl := s.fl.(msgId := t.fl.msgId), nextMsgId := t.nextMsgId)
  {
  }

  lemma SendOnceTries(cfg: Config, s: Sender)
    requires s.curr.Some?
    ensures Tried(s, SendOnce(cfg, s)) && SendOnce(cfg, s).sent != s.sent
  {
    hide WithId, PublishMsg;
    WithIdFrame(cfg, s);
  }

  lemma AskRegisterTries(cfg: Config, s: Sender)
    requires s.curr.Some?
    ensures Tried(s, AskRegister(cfg, s)) && AskRegister(cfg, s).curr.Some?
  {
  }

  lemma AttemptTries(cfg: Config, s: Sender)
    requires s.curr.Some?
    ensures Tried(s, Attempt(cfg, s))
  {
    hide SendOnce, AskRegister;
    var tried := s.(fl := s.fl.(attempt := s.fl.attempt + 1));
    SendOnceTries(cfg, tried);
    AskRegisterTries(cfg, tried);
  }

  lemma LoadFrame(cfg: Config, s: Sender)
    requires s.curr.Some?
    ensures var t := Load(cfg, s);
            && t == s.(fl := t.fl, nextMsgId := s.nextMsgId + 1) && t.fl.attempt == 0 && !t.fl.acked
            && t.fl.msgId == MsgId(cfg, t.nextMsgId) && t.fl.registerCount == s.fl.registerCount
  {
  }

  /** What one turn leaves alone. */
  lemma StartFrame(cfg: Config, s: Sender)
    requires s.ses.queue != []
    ensures var t := Start(cfg, s);
            && t.ses == s.ses.(queue := s.ses.queue[1..]) && t.ping == s.ping
            && t.disconnectSent == s.disconnectSent && (t.curr.None? ==> t.armed == s.armed)
  {
    hide Load, Attempt;
    LoadFrame(cfg, Pop(s));
    AttemptTries(cfg, Load(cfg, Pop(s)));
  }

  lemma {:induction false} DrainStops(cfg: Config, s: Sender)
    ensures var t := Drain(cfg, s);
            && (t.ses.queue == [] || t.curr.Some?) && |t.ses.queue| <= |s.ses.queue|
            && t.ses == s.ses.(queue := t.ses.queue)
            && t.ping == s.ping && t.disconnectSent == s.disconnectSent
    decreases |s.ses.queue|
  {
    hide Start;
    if s.ses.queue != [] && s.curr.None? {
      StartFrame(cfg, s);
      DrainStops(cfg, Start(cfg, s));
    }
  }

  /** The heart of the re-entrant loop: sending the front of the queue already empties the queue or leaves a
      publication waiting, through the recursion, and what remains to be done is unchanged. */
  lemma OneTurnDrains(cfg: Config, s: Sender)
    requires MayStart(s) && s.ses.queue != [] && !s.armed
    ensures var t := DoSend(cfg, Load(cfg, Pop(s)));
            && (t.ses.queue == [] || t.curr.Some?) && |t.ses.queue| < |s.ses.queue|
            && t.ses == s.ses.(queue := t.ses.queue) && Tail(t) == Tail(Drain(cfg, s))
  {
    hide Attempt, Load, Pop;
    StartFrame(cfg, s);
    var tried := Start(cfg, s);
    if tried.curr.None? {
      DrainStops(cfg, tried);
      AgainIsIdle(cfg, Drain(cfg, tried));
      assert tried.(armed := false) == tried;
    }
  }

  /** History only grows. */
  predicate Grows(s: Sender, t: Sender) {
    s.retired <= t.retired && s.sent <= t.sent
  }

  lemma StartGrows(cfg: Config, s: Sender)
    requires s.ses.queue != []
    ensures Grows(s, Start(cfg, s))
  {
    hide Load, Attempt;
    LoadFrame(cfg, Pop(s));
    AttemptTries(cfg, Load(cfg, Pop(s)));
  }

  lemma {:induction false} DrainGrows(cfg: Config, s: Sender)
    ensures Grows(s, Drain(cfg, s))
    decreases |s.ses.queue|
  {
    hide Start;
    if s.ses.queue != [] && s.curr.None? {
      StartGrows(cfg, s);
      StartFrame(cfg, s);
      DrainGrows(cfg, Start(cfg, s));
    }
  }

  lemma CheckGrows(cfg: Config, s: Sender)
    ensures Grows(s, Check(cfg, s))
  {
    hide Drain;
    DrainGrows(cfg, s.(armed := false));
  }

  /** What a REGACK leads to, whatever the QoS: the PUBLISH, and perhaps more. */
  lemma RegackPublishes(cfg: Config, s: Sender)
    requires s.curr.Some? && 0 < cfg.retryCount && NeedsRegister(s.fl)
    ensures var t := OnRegack(cfg, s, s.fl.info.topicId, s.fl.msgId, Accepted);
            && |s.sent| < |t.sent| && s.sent == t.sent[..|s.sent|]
            && t.sent[|s.sent|].Publish? && t.sent[|s.sent|].pub == s.curr.value
            && t.sent[|s.sent|].topicId == s.fl.info.topicId && t.sent[|s.sent|].dup == s.curr.value.dup
  {
    hide Check, SendOnce;
    var u := Registered(cfg, s);
    var tried := u.(fl := u.fl.(attempt := 1));
    assert Attempt(cfg, u) == SendOnce(cfg, tried);
    SendOncePublishes(cfg, tried);
    CheckGrows(cfg, SendOnce(cfg, tried));
  }

  /** An accepted registration counts, so that a publication is not registered over and over. */
  lemma RegackCounts(cfg: Config, s: Sender)
    requires s.curr.Some? && 0 < cfg.retryCount && NeedsRegister(s.fl) && s.curr.value.qos != AtMostOnce
    ensures var t := OnRegack(cfg, s, s.fl.info.topicId, s.fl.msgId, Accepted);
            t.curr == s.curr && t.fl.registered && t.fl.registerCount == s.fl.registerCount + 1
  {
    hide Check;
  }

  lemma SendOncePublishes(cfg: Config, s: Sender)
    requires s.curr.Some?
    ensures var t := SendOnce(cfg, s);
            && |t.sent| == |s.sent| + 1 && t.sent[..|s.sent|] == s.sent && t.sent[|s.sent|].Publish?
            && t.sent[|s.sent|].pub == s.curr.value && t.sent[|s.sent|].topicId == s.fl.info.topicId
            && t.sent[|s.sent|].dup == (s.curr.value.dup || 1 < s.fl.attempt)
  {
    hide WithId;
    WithIdFrame(cfg, s);
  }

  /** A client that answers gets the op through its handshake: REGACK to PUBLISH under the registered id, PUBREC to
      PUBREL under the same id, PUBACK and PUBCOMP to the end of the publication. */
  lemma AnswersLeadOn(cfg: Config, s: Sender)
    requires s.curr.Some? && 0 < cfg.retryCount
    ensures s.curr.value.qos == AtLeastOnce ==>
              s.retired + [s.curr.value] <= OnPuback(cfg, s, s.fl.info.topicId, s.fl.msgId, Accepted).retired
    ensures s.retired + [s.curr.value] <= OnPubcomp(cfg, s, s.fl.msgId).retired
    ensures var t := OnPubrec(s, s.fl.msgId);
            t.sent == s.sent + [Pubrel(s.fl.msgId)] && t.fl.acked && t.armed && t.curr == s.curr
    ensures NeedsRegister(s.fl) ==>
              var t := OnRegack(cfg, s, s.fl.info.topicId, s.fl.msgId, Accepted);
              && |s.sent| < |t.sent| && s.sent == t.sent[..|s.sent|]
              && t.sent[|s.sent|].Publish? && t.sent[|s.sent|].pub == s.curr.value
              && t.sent[|s.sent|].topicId == s.fl.info.topicId && t.sent[|s.sent|].dup == s.curr.value.dup
              && (s.curr.value.qos != AtMostOnce ==> t.fl.registerCount == s.fl.registerCount + 1)
  {
    hide Check, DoSend, OnRegack;
    CheckGrows(cfg, Retire(s.(armed := false)));
    if NeedsRegister(s.fl) {
      RegackPublishes(cfg, s);
      if s.curr.value.qos != AtMostOnce {
        RegackCounts(cfg, s);
      }
    }
  }

  /** A client that refuses: a refused registration and every refused PUBLISH end the publication, except that a
      rejected topic id starts it over with what the registry then answers. An accepted QoS 2 PUBLISH is not the end. */
  lemma RefusalsLeadOn(cfg: Config, s: Sender, rc: ReturnCode)
    requires s.curr.Some? && 0 < cfg.retryCount && rc != Accepted
    ensures s.retired + [s.curr.value] <= OnRegack(cfg, s, s.fl.info.topicId, s.fl.msgId, rc).retired
    ensures rc != InvalidTopicId ==>
              s.retired + [s.curr.value] <= OnPuback(cfg, s, s.fl.info.topicId, s.fl.msgId, rc).retired
    ensures s.curr.value.qos == ExactlyOnce ==> OnPuback(cfg, s, s.fl.info.topicId, s.fl.msgId, Accepted) == s
    ensures var t := OnPuback(cfg, s, s.fl.info.topicId, s.fl.msgId, InvalidTopicId);
            var info := cfg.resolve(s.nextMsgId, s.curr.value.topic);
            if info.isNew && info.kind == Normal then
              if cfg.retryCount <= s.fl.registerCount then s.retired + [s.curr.value] <= t.retired
              else t.sent == s.sent + [Register(info.topicId, MsgId(cfg, s.nextMsgId + 2), s.curr.value)]
            else
              && |s.sent| < |t.sent| && s.sent == t.sent[..|s.sent|]
              && t.sent[|s.sent|].Publish? && t.sent[|s.sent|].pub == s.curr.value
              && t.sent[|s.sent|].topicId == info.topicId && t.sent[|s.sent|].dup == s.curr.value.dup
  {
    hide Check, SendOnce;
    CheckGrows(cfg, Retire(s.(armed := false)));
    var u := Load(cfg, s.(armed := false));
    var tried := u.(fl := u.fl.(attempt := 1));
    if NeedsRegister(u.fl) {
      CheckGrows(cfg, Retire(tried));
    } else {
      assert Attempt(cfg, u) == SendOnce(cfg, tried);
      SendOncePublishes(cfg, tried);
      CheckGrows(cfg, SendOnce(cfg, tried));
    }
  }

  /** Answers that carry other ids than those of the current publication change nothing. */
  lemma OthersPassOver(cfg: Config, s: Sender, topicId: nat, msgId: nat, rc: ReturnCode)
    requires s.curr.None? || msgId != s.fl.msgId || topicId != s.fl.info.topicId
    ensures OnRegack(cfg, s, topicId, msgId, rc) == s && OnPuback(cfg, s, topicId, msgId, rc) == s
    ensures s.curr.None? || msgId != s.fl.msgId ==> OnPubrec(s, msgId) == s && OnPubcomp(cfg, s, msgId) == s
  {
  }

  /** Silence: the message of the stage goes out again, a REGISTER under a new id, a PUBLISH under its id and with DUP,
      until the retry count is reached and the publication is given up. */
  lemma TickRepeats(cfg: Config, s: Sender)
    requires s.curr.Some? && (s.curr.value.qos == AtMostOnce ==> NeedsRegister(s.fl))
    ensures var t := OnTick(cfg, s);
            if cfg.retryCount <= s.fl.attempt || (!s.fl.acked && NeedsRegister(s.fl) &&
                                                  cfg.retryCount <= s.fl.registerCount)
            then s.retired + [s.curr.value] <= t.retired
            else
              && t.curr == s.curr && t.armed && t.fl.attempt == s.fl.attempt + 1
              && if s.fl.acked then t.sent == s.sent + [Pubrel(s.fl.msgId)]
                 else if NeedsRegister(s.fl) then
                   t.sent == s.sent + [Register(s.fl.info.topicId, MsgId(cfg, s.nextMsgId + 1), s.curr.value)]
                 else
                   var dup := s.curr.value.dup || 1 <= s.fl.attempt;
                   && t.sent == s.sent + [Publish(s.fl.info.topicId, s.fl.info.kind, t.fl.msgId, dup, s.curr.value)]
                   && (t.fl.msgId == s.fl.msgId || NoId(cfg, s.fl.msgId))
  {
    hide Check;
    var u := s.(armed := false);
    CheckGrows(cfg, Retire(u));
    CheckGrows(cfg, Retire(u.(fl := u.fl.(attempt := u.fl.attempt + 1))));
  }

  /** A connected client is never left waiting: once the op has looked, the queue is empty or a publication is under
      way. A client that is disconnected, or asleep and has not asked, is left alone. */
  lemma NobodyWaits(cfg: Config, s: Sender)
    ensures s.ses.status == Connected ==> Check(cfg, s).ses.queue == [] || Check(cfg, s).curr.Some?
    ensures s.ses.status != Connected && (s.ses.status == Asleep ==> !s.ping) ==> Check(cfg, s) == s
  {
    hide Drain;
    DrainStops(cfg, s.(armed := false));
  }

  /** The op itself. The four private methods call each other exactly as in the source; the members that
      belong to the current publication are kept in one record, as is the session state. */
  class PubSendOp {
    const retryCount: nat
    const resolve: Resolver
    const cfg := Config(retryCount, resolve, true)

    var currPub: Option<Pub>
    var flight: Flight
    var nextMsgId: nat
    var ping: bool
    var disconnectAlreadySent: bool
    var tickArmed: bool
    var session: Session

    // History: messages handed to the client socket, publications given up or completed
    var sent: seq<ToClient>
    ghost var retired: seq<Pub>

    ghost function State(): Sender
      reads this
    {
      Sender(currPub, flight, nextMsgId, ping, disconnectAlreadySent, tickArmed, session, sent, retired)
    }

    constructor (retryCount: nat, resolve: Resolver)
      ensures State() == Init() && this.retryCount == retryCount && this.resolve == resolve
    {
      this.retryCount, this.resolve := retryCount, resolve;
      currPub, flight, nextMsgId, ping, disconnectAlreadySent, tickArmed := None, NO_FLIGHT, 0, false, false, false;
      session, sent, retired := Session([], Disconnected, false), [], [];
    }

    method SendToClient(m: ToClient)
      modifies `sent
      ensures sent == old(sent) + [m]
    {
      sent := sent + [m];
    }

    method AllocMsgId() returns (id: nat)
      modifies `nextMsgId
      ensures nextMsgId == old(nextMsgId) + 1 && id == Low16(nextMsgId)
    {
      nextMsgId := nextMsgId + 1;
      id := Low16(nextMsgId);
    }

    method ResetCurrent()
      requires currPub.Some?
      modifies `currPub, `retired
      ensures currPub == None && retired == old(retired) + [old(currPub).value]
    {
      retired := retired + [currPub.value];
      currPub := None;
    }

    /** Entered only through CheckSend, hence never with a current publication. */
    method NewSends()
      requires MayStart(State())
      modifies this
      ensures State() == Check(cfg, old(State()))
      decreases |session.queue|, 0
    {
      hide DoSend, Load, Drain, Tail;
      tickArmed := false;
      ghost var start := State();
      while session.queue != [] && currPub.None?
        invariant State() == start || (session.queue == [] || currPub.Some?)
        invariant State() != start ==> Tail(State()) == Tail(Drain(cfg, start))
        invariant session == start.ses.(queue := session.queue)
        decreases |session.queue|
      {
        currPub := Some(session.queue[0]);
        session := session.(queue := session.queue[1..]);
        flight := flight.(registerCount := 0);
        OneTurnDrains(cfg, start);
        SendCurrent();
      }
      IdleDrain(cfg, start);

      SendReplies();
    }

    /** The rest of `newSends`: what is owed to a leaving or sleeping client once the queue is empty. */
    method SendReplies()
      modifies `sent, `ping, `disconnectAlreadySent
      ensures State() == Tail(old(State()))
    {
      if session.queue != [] {
        return;
      }

      if session.pendingDisconnect {
        if !disconnectAlreadySent {
          SendToClient(Disconnect);
          disconnectAlreadySent := true;
        }
        return;
      }

      if ping {
        ping := false;
        SendToClient(Pingresp);
      }
    }

    method SendCurrent()
      requires currPub.Some?
      modifies this
      ensures State() == DoSend(cfg, Load(cfg, old(State())))
      decreases |session.queue|, 3
    {
      hide DoSend;
      flight := flight.(attempt := 0, info := cfg.resolve(nextMsgId, currPub.value.topic));
      var id := AllocMsgId();
      flight := flight.(msgId := id, registered := false, acked := false);
      DoSendCurrent();
    }

    method SendRegister()
      requires currPub.Some?
      modifies `nextMsgId, `flight, `sent, `tickArmed
      ensures State() == AskRegister(cfg, old(State()))
    {
      var id := AllocMsgId();
      flight := flight.(msgId := id);
      SendToClient(Register(flight.info.topicId, flight.msgId, currPub.value));
      tickArmed := true;
    }

    method SendPublish()
      requires currPub.Some?
      modifies `nextMsgId, `flight, `sent
      ensures var s := if currPub.value.qos == AtMostOnce then old(State()) else WithId(cfg, old(State()));
              State() == Emit(s, PublishMsg(s))
    {
      var id := 0;
      if currPub.value.qos != AtMostOnce {
        if flight.msgId == 0 {
          var pubId := AllocMsgId();
          flight := flight.(msgId := pubId);
        }
        id := flight.msgId;
      }
      var dup := currPub.value.dup || 1 < flight.attempt;
      SendToClient(Publish(flight.info.topicId, flight.info.kind, id, dup, currPub.value));
    }

    method DoSendCurrent()
      requires currPub.Some?
      modifies this
      ensures State() == DoSend(cfg, old(State()))
      decreases |session.queue|, 2
    {
      hide Check, AskRegister, WithId, PublishMsg;
      if cfg.retryCount <= flight.attempt {
        ResetCurrent();
        CheckSend();
        return;
      }

      flight := flight.(attempt := flight.attempt + 1);

      if flight.info.isNew && flight.info.kind == Normal && !flight.registered {
        if cfg.retryCount <= flight.registerCount {
          ResetCurrent();
          CheckSend();
          return;
        }
        SendRegister();
        return;
      }

      SendPublish();
      if currPub.value.qos == AtMostOnce {
        ResetCurrent();
        CheckSend();
        return;
      }
      tickArmed := true;
    }

    method CheckSend()
      modifies this
      ensures State() == Check(cfg, old(State()))
      decreases |session.queue|, 1
    {
      if currPub.Some? || session.status == Disconnected {
        return;
      }

      if session.status == Asleep && ping {
        NewSends();
        return;
      }

      if session.status != Connected {
        return;
      }

      if session.queue != [] || session.pendingDisconnect {
        NewSends();
      }
    }

    method SendPubrel()
      modifies `sent, `tickArmed
      ensures sent == old(sent) + [Pubrel(flight.msgId)] && tickArmed
    {
      SendToClient(Pubrel(flight.msgId));
      tickArmed := true;
    }

    method TickImpl()
      modifies this
      ensures State() == OnTick(cfg, old(State()))
    {
      hide DoSend, Check;
      tickArmed := false;
      if currPub.None? {
        CheckSend();
        return;
      }

      if !flight.acked {
        DoSendCurrent();
        return;
      }

      if cfg.retryCount <= flight.attempt {
        ResetCurrent();
        CheckSend();
        return;
      }

      flight := flight.(attempt := flight.attempt + 1);
      SendPubrel();
    }

    method HandleRegack(topicId: nat, msgId: nat, rc: ReturnCode)
      modifies this
      ensures State() == OnRegack(cfg, old(State()), topicId, msgId, rc)
    {
      hide DoSend, Check;
      if currPub.None? || topicId != flight.info.topicId || msgId != flight.msgId {
        return;
      }

      tickArmed := false;
      if rc != Accepted {
        ResetCurrent();
        CheckSend();
        return;
      }

      flight := flight.(attempt := 0, registered := true, registerCount := flight.registerCount + 1);
      var id := AllocMsgId();
      flight := flight.(msgId := id);
      DoSendCurrent();
    }

    /** `discarded` is the topic id whose registration goes, also on a PUBACK that is then ignored. */
    method HandlePuback(topicId: nat, msgId: nat, rc: ReturnCode) returns (discarded: Option<nat>)
      modifies this
      ensures State() == OnPuback(cfg, old(State()), topicId, msgId, rc)
      ensures discarded == if rc == InvalidTopicId then Some(topicId) else None
    {
      hide DoSend, Check;
      discarded := None;
      if rc == InvalidTopicId {
        discarded := Some(topicId);
      }

      if currPub.None? || topicId != flight.info.topicId || msgId != flight.msgId {
        return;
      }

      if rc == Accepted && currPub.value.qos == ExactlyOnce {
        return;
      }

      tickArmed := false;
      if rc == InvalidTopicId {
        SendCurrent();
        return;
      }

      ResetCurrent();
      CheckSend();
    }

    method HandlePubrec(msgId: nat)
      modifies this
      ensures State() == OnPubrec(old(State()), msgId)
    {
      if currPub.None? || msgId != flight.msgId {
        return;
      }

      tickArmed := false;
      flight := flight.(acked := true, attempt := 0);
      SendPubrel();
    }

    method HandlePubcomp(msgId: nat)
      modifies this
      ensures State() == OnPubcomp(cfg, old(State()), msgId)
    {
      hide Check;
      if currPub.None? || msgId != flight.msgId {
        return;
      }

      tickArmed := false;
      ResetCurrent();
      CheckSend();
    }

    method HandlePingreq(sameClient: bool)
      modifies this
      ensures State() == OnPingreq(cfg, old(State()), sameClient)
    {
      hide Check;
      if session.status != Asleep {
        return;
      }

      if !sameClient {
        return;
      }

      ping := true;
      CheckSend();
    }
  }
}
