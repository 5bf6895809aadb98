/** QoS 2 delivery with the 16-bit ids of the wire. The run with cut ids is compared with the run of the full
    numbering: as long as no two ids that are in use share their low 16 bits, the one is the other with every id
    cut, so what `QosTwo` proves of the full numbering holds of the code. */
module QosTwoWire {
  import opened Protocol
  import opened PubSend
  import opened PubSendRuns
  import opened QosTwo

  /* Cutting ids */

  function CutMsg(m: ToClient): ToClient {
    match m
    case Register(topicId, msgId, pub) => Register(topicId, Low16(msgId), pub)
    case Publish(topicId, kind, msgId, dup, pub) => Publish(topicId, kind, Low16(msgId), dup, pub)
    case Pubrel(msgId) => Pubrel(Low16(msgId))
    case Disconnect => m
    case Pingresp => m
  }

  function CutAck(a: ToGateway): ToGateway {
    match a
    case RegackTo(topicId, msgId, rc) => RegackTo(topicId, Low16(msgId), rc)
    case PubackTo(topicId, msgId, rc) => PubackTo(topicId, Low16(msgId), rc)
    case PubrecTo(msgId) => PubrecTo(Low16(msgId))
    case PubcompTo(msgId) => PubcompTo(Low16(msgId))
  }

  function CutReport(r: Report): Report {
    r.(msgId := Low16(r.msgId))
  }

  function Map<A, B>(f: A -> B, s: seq<A>): seq<B> {
    seq(|s|, i requires 0 <= i < |s| => f(s[i]))
  }

  lemma MapPush<A, B>(f: A -> B, s: seq<A>, x: A)
    ensures Map(f, s + [x]) == Map(f, s) + [f(x)]
  {
  }

  function CutSender(s: Sender): Sender {
    s.(fl := s.fl.(msgId := Low16(s.fl.msgId)), sent := Map(CutMsg, s.sent))
  }

  function CutWorld(w: World): World {
    World(w.gRead, Client(Low16(w.cl.last), w.cl.known), Map(CutAck, w.csent), Map(CutReport, w.reports))
  }

  function CutSystem(y: System): System {
    System(y.run.(snd := CutSender(y.run.snd)), CutWorld(y.w), y.cRead, y.completed, y.confirmed)
  }

  /** The same gateway with the full numbering. */
  function Wide(cfg: Config): Config {
    cfg.(narrow := false)
  }

  /* The gateway commutes with cutting */

  lemma CutTakeId(cfg: Config, s: Sender)
    requires cfg.narrow
    ensures TakeId(cfg, CutSender(s)) == CutSender(TakeId(Wide(cfg), s))
  {
  }

  lemma CutWithId(cfg: Config, s: Sender)
    requires cfg.narrow
    ensures WithId(cfg, CutSender(s)) == CutSender(WithId(Wide(cfg), s))
  {
    hide TakeId;
    CutTakeId(cfg, s);
  }

  lemma CutEmit(s: Sender, m: ToClient)
    ensures Emit(CutSender(s), CutMsg(m)) == CutSender(Emit(s, m))
  {
    MapPush(CutMsg, s.sent, m);
  }

  lemma CutPublishMsg(s: Sender)
    requires s.curr.Some?
    ensures PublishMsg(CutSender(s)) == CutMsg(PublishMsg(s))
  {
  }

  lemma CutAskRegister(cfg: Config, s: Sender)
    requires cfg.narrow && s.curr.Some?
    ensures AskRegister(cfg, CutSender(s)) == CutSender(AskRegister(Wide(cfg), s))
  {
    CutTakeId(cfg, s);
    var u := TakeId(Wide(cfg), s);
    CutEmit(u, Register(u.fl.info.topicId, u.fl.msgId, u.curr.value));
  }

  lemma CutSendOnce(cfg: Config, s: Sender)
    requires cfg.narrow && s.curr.Some?
    ensures SendOnce(cfg, CutSender(s)) == CutSender(SendOnce(Wide(cfg), s))
  {
    hide WithId, PublishMsg, Emit;
    if s.curr.value.qos == AtMostOnce {
      CutPublishMsg(s);
      CutEmit(s, PublishMsg(s));
      EmitFrame(s, PublishMsg(s));
      EmitFrame(CutSender(s), PublishMsg(CutSender(s)));
    } else {
      CutWithId(cfg, s);
      WithIdFrame(Wide(cfg), s);
      var u := WithId(Wide(cfg), s);
      CutPublishMsg(u);
      CutEmit(u, PublishMsg(u));
    }
  }

  lemma EmitFrame(s: Sender, m: ToClient)
    ensures Emit(s, m) == s.(sent := Emit(s, m).sent)
  {
  }

  lemma CutAttempt(cfg: Config, s: Sender)
    requires cfg.narrow && s.curr.Some?
    ensures Attempt(cfg, CutSender(s)) == CutSender(Attempt(Wide(cfg), s))
  {
    hide SendOnce, AskRegister;
    var tried := s.(fl := s.fl.(attempt := s.fl.attempt + 1));
    CutSendOnce(cfg, tried);
    CutAskRegister(cfg, tried);
  }

  lemma CutLoad(cfg: Config, s: Sender)
    requires cfg.narrow && s.curr.Some?
    ensures Load(cfg, CutSender(s)) == CutSender(Load(Wide(cfg), s))
  {
  }

  lemma CutStart(cfg: Config, s: Sender)
    requires cfg.narrow && s.ses.queue != []
    ensures Start(cfg, CutSender(s)) == CutSender(Start(Wide(cfg), s))
  {
    hide Load, Attempt;
    assert Pop(CutSender(s)) == CutSender(Pop(s));
    CutLoad(cfg, Pop(s));
    LoadFrame(Wide(cfg), Pop(s));
    CutAttempt(cfg, Load(Wide(cfg), Pop(s)));
  }

  lemma {:induction false} CutDrain(cfg: Config, s: Sender)
    requires cfg.narrow
    ensures Drain(cfg, CutSender(s)) == CutSender(Drain(Wide(cfg), s))
    decreases |s.ses.queue|
  {
    hide Start;
    if s.ses.queue != [] && s.curr.None? {
      CutStart(cfg, s);
      StartFrame(Wide(cfg), s);
      CutDrain(cfg, Start(Wide(cfg), s));
    }
  }

  lemma CutTail(s: Sender)
    ensures Tail(CutSender(s)) == CutSender(Tail(s))
  {
    CutEmit(s, Disconnect);
    CutEmit(s, Pingresp);
  }

  lemma CutCheck(cfg: Config, s: Sender)
    requires cfg.narrow
    ensures Check(cfg, CutSender(s)) == CutSender(Check(Wide(cfg), s))
  {
    hide Drain, Tail;
    CutDrain(cfg, s.(armed := false));
    CutTail(Drain(Wide(cfg), s.(armed := false)));
  }

  lemma CutDoSend(cfg: Config, s: Sender)
    requires cfg.narrow && s.curr.Some?
    ensures DoSend(cfg, CutSender(s)) == CutSender(DoSend(Wide(cfg), s))
  {
    hide Attempt, Check;
    CutAttempt(cfg, s);
    CutCheck(cfg, Attempt(Wide(cfg), s));
  }

  lemma CutRetire(s: Sender)
    requires s.curr.Some?
    ensures Retire(CutSender(s)) == CutSender(Retire(s))
  {
  }

  lemma CutTick(cfg: Config, s: Sender)
    requires cfg.narrow
    ensures OnTick(cfg, CutSender(s)) == CutSender(OnTick(Wide(cfg), s))
  {
    hide DoSend, Check;
    var u := s.(armed := false);
    CutCheck(cfg, u);
    if s.curr.Some? {
      CutDoSend(cfg, u);
      CutRetire(u);
      CutCheck(cfg, Retire(u));
      CutEmit(u, Pubrel(u.fl.msgId));
    }
  }

  lemma CutEvent(cfg: Config, s: Sender, e: Event)
    requires cfg.narrow && !IsAck(e)
    ensures Answer(cfg, CutSender(s), e) == CutSender(Answer(Wide(cfg), s, e))
  {
    hide OnTick, Check;
    CutTick(cfg, s);
    CutCheck(cfg, s);
    CutCheck(cfg, s.(ping := true));
  }

  /** An acknowledgement is taken for the current publication or not, the same with cut ids. */
  ghost predicate Clear(s: Sender, msgId: nat) {
    s.curr.Some? && Low16(msgId) == Low16(s.fl.msgId) ==> msgId == s.fl.msgId
  }

  lemma CutAnswer(cfg: Config, s: Sender, a: ToGateway)
    requires cfg.narrow && Clear(s, a.msgId)
    ensures OnAck(cfg, CutSender(s), CutAck(a)) == CutSender(OnAck(Wide(cfg), s, a))
  {
    hide OnRegack, OnPuback, OnPubcomp, Low16;
    match a
    case RegackTo(_, _, _) => CutRegack(cfg, s, a);
    case PubackTo(_, _, _) => CutPuback(cfg, s, a);
    case PubrecTo(_) => CutEmit(s, Pubrel(s.fl.msgId));
    case PubcompTo(_) => CutPubcomp(cfg, s, a);
  }

  lemma CutRegack(cfg: Config, s: Sender, a: ToGateway)
    requires cfg.narrow && Clear(s, a.msgId) && a.RegackTo?
    ensures OnRegack(cfg, CutSender(s), a.topicId, Low16(a.msgId), a.rc) ==
            CutSender(OnRegack(Wide(cfg), s, a.topicId, a.msgId, a.rc))
  {
    hide DoSend, Check, Low16, Registered;
    if s.curr.Some? {
      CutRetire(s.(armed := false));
      CutCheck(cfg, Retire(s.(armed := false)));
      CutRegistered(cfg, s);
      CutDoSend(cfg, Registered(Wide(cfg), s));
    }
  }

  lemma CutPuback(cfg: Config, s: Sender, a: ToGateway)
    requires cfg.narrow && Clear(s, a.msgId) && a.PubackTo?
    ensures OnPuback(cfg, CutSender(s), a.topicId, Low16(a.msgId), a.rc) ==
            CutSender(OnPuback(Wide(cfg), s, a.topicId, a.msgId, a.rc))
  {
    hide DoSend, Check, Load, Low16;
    var u := s.(armed := false);
    if s.curr.Some? {
      CutRetire(u);
      CutCheck(cfg, Retire(u));
      CutLoad(cfg, u);
      LoadFrame(Wide(cfg), u);
      CutDoSend(cfg, Load(Wide(cfg), u));
    }
  }

  lemma CutPubcomp(cfg: Config, s: Sender, a: ToGateway)
    requires cfg.narrow && Clear(s, a.msgId) && a.PubcompTo?
    ensures OnPubcomp(cfg, CutSender(s), Low16(a.msgId)) == CutSender(OnPubcomp(Wide(cfg), s, a.msgId))
  {
    hide Check, Low16;
    if s.curr.Some? {
      CutRetire(s.(armed := false));
      CutCheck(cfg, Retire(s.(armed := false)));
    }
  }

  lemma CutRegistered(cfg: Config, s: Sender)
    requires cfg.narrow
    ensures Registered(cfg, CutSender(s)) == CutSender(Registered(Wide(cfg), s))
    ensures Registered(Wide(cfg), s).curr == s.curr
  {
  }

  /* The client commutes with cutting */

  /** The client takes a message for the one it remembers or not, the same with cut ids. */
  ghost predicate ClearTo(w: World, m: ToClient) {
    && (w.cl.last != 0 ==> Low16(w.cl.last) != 0)
    && (w.cl.last != 0 && (m.Publish? || m.Pubrel?) && Low16(w.cl.last) == Low16(m.msgId) ==> w.cl.last == m.msgId)
  }

  lemma CutMessage(accepts: Accepts, w: World, m: ToClient)
    requires ClearTo(w, m)
    ensures OnMessage(accepts, CutWorld(w), CutMsg(m)) == CutWorld(OnMessage(accepts, w, m))
  {
    match m
    case Register(_, _, _) =>
      MapPush(CutAck, w.csent, RegackTo(m.topicId, m.msgId, NotSupported));
      MapPush(CutAck, w.csent, RegackTo(m.topicId, m.msgId, InvalidTopicId));
      MapPush(CutAck, w.csent, RegackTo(m.topicId, m.msgId, Accepted));
    case Publish(_, _, _, _, _) => CutPublish(w, m);
    case Pubrel(_) =>
      MapPush(CutAck, w.csent, PubcompTo(m.msgId));
    case Disconnect =>
    case Pingresp =>
  }

  lemma CutPublish(w: World, m: ToClient)
    requires ClearTo(w, m) && m.Publish?
    ensures OnPublish(CutWorld(w), CutMsg(m)) == CutWorld(OnPublish(w, m))
  {
    MapPush(CutAck, w.csent, PubackTo(m.topicId, m.msgId, InvalidTopicId));
    MapPush(CutAck, w.csent, PubackTo(m.topicId, m.msgId, Accepted));
    MapPush(CutAck, w.csent, PubrecTo(m.msgId));
    MapPush(CutReport, w.reports, Report(m.msgId, m.pub));
  }

  /* What a gateway event sends and which id it leaves in use */

  predicate Carries(m: ToClient, k: nat) {
    (m.Register? || m.Publish? || m.Pubrel?) && m.msgId == k
  }

  /** From `s` to `t` only QoS 0 messages, messages of the publication current in `t` and messages without id were
      sent. Its id is the last one taken, or still that of `s` if none was. */
  ghost predicate Emits(cfg: Config, s: Sender, t: Sender) {
    && s.sent <= t.sent && s.nextMsgId <= t.nextMsgId
    && (forall j, k :: |s.sent| <= j < |t.sent| && Carries(t.sent[j], k) ==> OwnId(s, t, t.sent[j], k))
    && (t.curr.Some? ==>
          if t.nextMsgId == s.nextMsgId then s.curr.Some? && t.fl.msgId == s.fl.msgId
          else t.fl.msgId == MsgId(cfg, t.nextMsgId))
  }

  predicate OwnId(s: Sender, t: Sender, m: ToClient, k: nat) {
    if Numbered(m) then t.curr.Some? && k == t.fl.msgId
    else k == 0 && (t.curr.Some? ==> t.nextMsgId != s.nextMsgId)
  }

  lemma EmitsThen(cfg: Config, s: Sender, u: Sender, t: Sender)
    requires Emits(cfg, s, u) && Emits(cfg, u, t) && (u.curr.None? || u.sent == s.sent)
    ensures Emits(cfg, s, t)
  {
    forall j, k | |s.sent| <= j < |t.sent| && Carries(t.sent[j], k) ensures OwnId(s, t, t.sent[j], k) {
      if j < |u.sent| {
        assert t.sent[j] == u.sent[j];
      }
    }
  }

  lemma AttemptEmits(cfg: Config, s: Sender)
    requires s.curr.Some?
    ensures Emits(cfg, s, Attempt(cfg, s))
  {
    hide SendOnce, AskRegister, Low16;
    var tried := s.(fl := s.fl.(attempt := s.fl.attempt + 1));
    SendOnceEmits(cfg, tried);
    AskRegisterEmits(cfg, tried);
  }

  lemma SendOnceEmits(cfg: Config, s: Sender)
    requires s.curr.Some?
    ensures Emits(cfg, s, SendOnce(cfg, s))
  {
    hide Low16, WithId;
    WithIdFrame(cfg, s);
    WithIdTakes(cfg, s);
  }

  lemma WithIdTakes(cfg: Config, s: Sender)
    ensures var u := WithId(cfg, s);
            u == s || (u.nextMsgId == s.nextMsgId + 1 && u.fl.msgId == MsgId(cfg, u.nextMsgId))
  {
    hide MsgId, NoId;
  }

  lemma AskRegisterEmits(cfg: Config, s: Sender)
    requires s.curr.Some?
    ensures Emits(cfg, s, AskRegister(cfg, s))
  {
    hide Low16;
  }

  lemma StartEmits(cfg: Config, s: Sender)
    requires s.ses.queue != []
    ensures Emits(cfg, s, Start(cfg, s))
  {
    hide Load, Attempt, MsgId;
    LoadFrame(cfg, Pop(s));
    AttemptEmits(cfg, Load(cfg, Pop(s)));
    EmitsThen(cfg, s, Load(cfg, Pop(s)), Start(cfg, s));
  }

  lemma {:induction false} DrainEmits(cfg: Config, s: Sender)
    ensures Emits(cfg, s, Drain(cfg, s))
    decreases |s.ses.queue|
  {
    hide Start, Emits;
    if s.ses.queue != [] && s.curr.None? {
      StartEmits(cfg, s);
      StartFrame(cfg, s);
      DrainEmits(cfg, Start(cfg, s));
      if Start(cfg, s).curr.None? {
        EmitsThen(cfg, s, Start(cfg, s), Drain(cfg, s));
      } else {
        assert Drain(cfg, s) == Start(cfg, s);
      }
    } else {
      EmitsNothing(cfg, s, s);
    }
  }

  lemma EmitsNothing(cfg: Config, s: Sender, t: Sender)
    requires t.sent == s.sent && t.nextMsgId == s.nextMsgId
    requires t.curr.Some? ==> s.curr.Some? && t.fl.msgId == s.fl.msgId
    ensures Emits(cfg, s, t)
  {
  }

  lemma TailEmits(cfg: Config, s: Sender, t: Sender)
    requires Emits(cfg, s, t)
    ensures Emits(cfg, s, Tail(t))
  {
    hide Low16;
  }

  lemma CheckEmits(cfg: Config, s: Sender, u: Sender)
    requires Emits(cfg, s, u) && (u.curr.None? || u.sent == s.sent)
    ensures Emits(cfg, s, Check(cfg, u))
  {
    hide Drain, Emits, Tail;
    if MayStart(u) {
      var v := u.(armed := false);
      EmitsNothing(cfg, u, v);
      DrainEmits(cfg, v);
      EmitsThen(cfg, u, v, Drain(cfg, v));
      EmitsThen(cfg, s, u, Drain(cfg, v));
      TailEmits(cfg, s, Drain(cfg, v));
    }
  }

  lemma RetireEmits(cfg: Config, s: Sender)
    requires s.curr.Some?
    ensures Emits(cfg, s, Check(cfg, Retire(s.(armed := false))))
  {
    hide Check, Emits;
    EmitsNothing(cfg, s, Retire(s.(armed := false)));
    CheckEmits(cfg, s, Retire(s.(armed := false)));
  }

  lemma DoSendEmits(cfg: Config, s: Sender, u: Sender)
    requires Emits(cfg, s, u) && u.sent == s.sent && u.curr.Some?
    ensures Emits(cfg, s, DoSend(cfg, u))
  {
    hide Attempt, Check, Emits;
    AttemptEmits(cfg, u);
    EmitsThen(cfg, s, u, Attempt(cfg, u));
    if Attempt(cfg, u).curr.None? {
      CheckEmits(cfg, s, Attempt(cfg, u));
    }
  }

  lemma RelEmits(cfg: Config, s: Sender, t: Sender)
    requires s.curr.Some? && t.sent == s.sent + [Pubrel(s.fl.msgId)] && t.curr == s.curr
    requires t.nextMsgId == s.nextMsgId && t.fl.msgId == s.fl.msgId
    ensures Emits(cfg, s, t)
  {
  }

  lemma TickEmits(cfg: Config, s: Sender)
    ensures Emits(cfg, s, OnTick(cfg, s))
  {
    hide DoSend, Check, Emits;
    var u := s.(armed := false);
    EmitsNothing(cfg, s, u);
    if s.curr.None? {
      CheckEmits(cfg, s, u);
    } else if !s.fl.acked {
      DoSendEmits(cfg, s, u);
    } else if cfg.retryCount <= s.fl.attempt {
      RetireEmits(cfg, s);
    } else {
      RelEmits(cfg, s, OnTick(cfg, s));
    }
  }

  lemma RegackEmits(cfg: Config, s: Sender, topicId: nat, msgId: nat, rc: ReturnCode)
    ensures Emits(cfg, s, OnRegack(cfg, s, topicId, msgId, rc))
  {
    hide DoSend, Check, Low16;
    EmitsNothing(cfg, s, s);
    if s.curr.Some? {
      RetireEmits(cfg, s);
      DoSendEmits(cfg, s, Registered(cfg, s));
    }
  }

  lemma PubackEmits(cfg: Config, s: Sender, topicId: nat, msgId: nat, rc: ReturnCode)
    ensures Emits(cfg, s, OnPuback(cfg, s, topicId, msgId, rc))
  {
    hide DoSend, Check, Load, Low16;
    EmitsNothing(cfg, s, s);
    if s.curr.Some? {
      RetireEmits(cfg, s);
      LoadFrame(cfg, s.(armed := false));
      DoSendEmits(cfg, s, Load(cfg, s.(armed := false)));
    }
  }

  lemma AnswerEmits(cfg: Config, s: Sender, e: Event)
    ensures Emits(cfg, s, Answer(cfg, s, e))
  {
    hide OnTick, OnRegack, OnPuback, Check, Emits;
    EmitsNothing(cfg, s, s);
    match e
    case Tick => TickEmits(cfg, s);
    case Regack(topicId, msgId, rc) => RegackEmits(cfg, s, topicId, msgId, rc);
    case Puback(topicId, msgId, rc) => PubackEmits(cfg, s, topicId, msgId, rc);
    case Pubrec(msgId) =>
      if s.curr.Some? && msgId == s.fl.msgId {
        RelEmits(cfg, s, OnPubrec(s, msgId));
      }
    case Pubcomp(msgId) =>
      if s.curr.Some? {
        RetireEmits(cfg, s);
      }
    case Pingreq(_) =>
      EmitsNothing(cfg, s, s.(ping := true));
      CheckEmits(cfg, s, s.(ping := true));
    case OtherMessage => CheckEmits(cfg, s, s);
    case SetStatus(_) => EmitsNothing(cfg, s, Answer(cfg, s, e));
    case SetPendingDisconnect => EmitsNothing(cfg, s, Answer(cfg, s, e));
    case Enqueue(_, _, _, _, _, _) =>
  }

  lemma StepEmits(cfg: Config, r: Run, e: Event)
    ensures Emits(cfg, r.snd, Step(cfg, r, e).snd)
  {
    hide Answer, Emits;
    if e.Enqueue? {
      EmitsNothing(cfg, r.snd, Step(cfg, r, e).snd);
    } else {
      AnswerEmits(cfg, r.snd, e);
    }
  }

  /* Ids in use */

  /** The id is remembered by the client, belongs to the current publication, or is on its way in some message. */
  ghost predicate InTransit(y: System, k: nat) {
    || (k != 0 && y.w.cl.last == k)
    || (y.run.snd.curr.Some? && y.run.snd.fl.msgId == k)
    || Unread(y.run.snd.sent, y.w.gRead, k)
    || Unanswered(y.w.csent, y.cRead, k)
  }

  ghost predicate Unread(sent: seq<ToClient>, read: nat, k: nat) {
    exists j :: read <= j < |sent| && Carries(sent[j], k)
  }

  ghost predicate Unanswered(csent: seq<ToGateway>, read: nat, k: nat) {
    exists j :: read <= j < |csent| && csent[j].msgId == k
  }

  /** No two ids in use have the same low 16 bits. Bits 0 stand for no id, except to a REGISTER that waits. */
  ghost predicate ToldApart(y: System) {
    && (forall a, b :: InTransit(y, a) && InTransit(y, b) && Low16(a) == Low16(b) != 0 ==> a == b)
    && (y.run.snd.curr.Some? && Low16(y.run.snd.fl.msgId) == 0 ==> ZeroFree(y))
  }

  ghost predicate ZeroFree(y: System) {
    forall a :: Low16(a) == 0 && (Unread(y.run.snd.sent, y.w.gRead, a) || Unanswered(y.w.csent, y.cRead, a)) ==>
      a == y.run.snd.fl.msgId
  }

  /** From `y` to `y'` the gateway takes no id that the client still remembers or an unread message carries. Messages
      of the step itself count only as far as they carry no number of their own. */
  ghost predicate FreshId(y: System, y': System) {
    y'.run.snd.nextMsgId != y.run.snd.nextMsgId && y'.run.snd.curr.Some? ==> Unused(y, y', y'.run.snd.fl.msgId)
  }

  ghost predicate Unused(y: System, y': System, k: nat) {
    && (k != 0 ==> y.w.cl.last != k)
    && (forall j :: y.w.gRead <= j < |y'.run.snd.sent| && (j < |y.run.snd.sent| || !Numbered(y'.run.snd.sent[j])) ==>
          !Carries(y'.run.snd.sent[j], k))
    && !Unanswered(y'.w.csent, y'.cRead, k)
  }

  /** Every move of the run takes fresh ids only, and changes what the client remembers only when that is safe. */
  ghost predicate Orderly(cfg: Config, accepts: Accepts, y: System, mvs: seq<Move>)
    decreases |mvs|
  {
    mvs == [] ||
    var y' := Next(cfg, accepts, y, mvs[0]);
    FreshId(y, y') && MemoryStays(y, mvs[0]) && Orderly(cfg, accepts, y', mvs[1..])
  }

  /** What is unread after a gateway event was unread before or carries the id of the current publication, or
      else 0 when an id was taken or none is current. */
  lemma UnreadAfter(cfg: Config, s: Sender, t: Sender, read: nat, k: nat)
    requires Emits(cfg, s, t) && read <= |s.sent| && Unread(t.sent, read, k)
    ensures || Unread(s.sent, read, k)
            || (t.curr.Some? && k == t.fl.msgId)
            || (k == 0 && (t.curr.Some? ==> t.nextMsgId != s.nextMsgId))
  {
    var j :| read <= j < |t.sent| && Carries(t.sent[j], k);
    if j < |s.sent| {
      assert t.sent[j] == s.sent[j];
    } else {
      assert OwnId(s, t, t.sent[j], k);
    }
  }

  /** A gateway event that leads from `y` to `y'`. */
  ghost predicate GatewayMove(cfg: Config, y: System, y': System) {
    && Emits(cfg, y.run.snd, y'.run.snd) && y'.w == y.w && y.cRead <= y'.cRead && y.w.gRead <= |y.run.snd.sent|
  }

  lemma UnansweredAfter(y: System, y': System, k: nat)
    requires y'.w == y.w && y.cRead <= y'.cRead && Unanswered(y'.w.csent, y'.cRead, k)
    ensures Unanswered(y.w.csent, y.cRead, k)
  {
  }

  /** The id taken differs, cut or not, from all that is in use besides. */
  ghost predicate TakenFresh(y: System, y': System) {
    y'.run.snd.nextMsgId != y.run.snd.nextMsgId && y'.run.snd.curr.Some? ==>
      forall k :: Low16(k) == Low16(y'.run.snd.fl.msgId) && k != y'.run.snd.fl.msgId ==> Elsewhere(y, y', k)
  }

  ghost predicate Elsewhere(y: System, y': System, k: nat) {
    && (k != 0 ==> y.w.cl.last != k)
    && !Unread(y'.run.snd.sent, y.w.gRead, k) && !Unanswered(y'.w.csent, y'.cRead, k)
  }

  lemma TakenOrElsewhere(y: System, y': System, k: nat)
    requires TakenFresh(y, y')
    ensures var t := y'.run.snd;
            t.nextMsgId != y.run.snd.nextMsgId && t.curr.Some? && Low16(k) == Low16(t.fl.msgId) ==>
              k == t.fl.msgId || Elsewhere(y, y', k)
  {
  }

  lemma InTransitAfter(cfg: Config, y: System, y': System, k: nat)
    requires GatewayMove(cfg, y, y') && InTransit(y', k) && k != 0
    ensures InTransit(y, k) || (y'.run.snd.curr.Some? && k == y'.run.snd.fl.msgId)
  {
    hide Unread, Unanswered;
    if Unread(y'.run.snd.sent, y.w.gRead, k) {
      UnreadAfter(cfg, y.run.snd, y'.run.snd, y.w.gRead, k);
    }
    if Unanswered(y'.w.csent, y'.cRead, k) {
      UnansweredAfter(y, y', k);
    }
  }

  lemma StillApart(cfg: Config, y: System, y': System)
    requires ToldApart(y) && GatewayMove(cfg, y, y') && TakenFresh(y, y')
    ensures ToldApart(y')
  {
    hide Low16, Unread, Unanswered;
    forall a, b | InTransit(y', a) && InTransit(y', b) && Low16(a) == Low16(b) != 0 ensures a == b {
      LowZero(a);
      LowZero(b);
      PairApart(cfg, y, y', a, b);
    }
    if y'.run.snd.curr.Some? && Low16(y'.run.snd.fl.msgId) == 0 {
      ZeroApart(cfg, y, y');
    }
  }

  lemma LowZero(k: nat)
    ensures k == 0 ==> Low16(k) == 0
  {
  }

  lemma PairApart(cfg: Config, y: System, y': System, a: nat, b: nat)
    requires ToldApart(y) && GatewayMove(cfg, y, y') && TakenFresh(y, y')
    requires InTransit(y', a) && InTransit(y', b) && Low16(a) == Low16(b) != 0 && a != 0 && b != 0
    ensures a == b
  {
    hide Low16, Unread, Unanswered, ZeroFree, Emits;
    InTransitAfter(cfg, y, y', a);
    InTransitAfter(cfg, y, y', b);
    CurrentKept(cfg, y, y');
    TakenOrElsewhere(y, y', a);
    TakenOrElsewhere(y, y', b);
  }

  lemma CurrentKept(cfg: Config, y: System, y': System)
    requires GatewayMove(cfg, y, y')
    ensures y'.run.snd.curr.Some? && y'.run.snd.nextMsgId == y.run.snd.nextMsgId ==>
              y.run.snd.curr.Some? && y'.run.snd.fl.msgId == y.run.snd.fl.msgId
  {
  }

  lemma ZeroApart(cfg: Config, y: System, y': System)
    requires ToldApart(y) && GatewayMove(cfg, y, y') && TakenFresh(y, y')
    requires y'.run.snd.curr.Some? && Low16(y'.run.snd.fl.msgId) == 0
    ensures ZeroFree(y')
  {
    hide Low16, Unread, Unanswered, InTransit, Emits;
    CurrentKept(cfg, y, y');
    var s, t := y.run.snd, y'.run.snd;
    forall a | Low16(a) == 0 && (Unread(t.sent, y.w.gRead, a) || Unanswered(y'.w.csent, y'.cRead, a))
      ensures a == t.fl.msgId
    {
      if t.nextMsgId == s.nextMsgId {
        if Unread(t.sent, y.w.gRead, a) {
          UnreadAfter(cfg, s, t, y.w.gRead, a);
        } else {
          UnansweredAfter(y, y', a);
        }
      } else {
        TakenOrElsewhere(y, y', a);
      }
    }
  }

  /* One move */

  lemma CutAckId(a: ToGateway)
    ensures CutAck(a).msgId == Low16(a.msgId)
  {
    match a
    case RegackTo(_, _, _) =>
    case PubackTo(_, _, _) =>
    case PubrecTo(_) =>
    case PubcompTo(_) =>
  }

  lemma CutUnanswered(csent: seq<ToGateway>, read: nat, k: nat)
    ensures Unanswered(csent, read, k) ==> Unanswered(Map(CutAck, csent), read, Low16(k))
  {
    if Unanswered(csent, read, k) {
      var j :| read <= j < |csent| && csent[j].msgId == k;
      CutAckId(csent[j]);
      assert Map(CutAck, csent)[j] == CutAck(csent[j]);
    }
  }

  /** Freshness of the cut id is freshness of the number. */
  lemma CutFresh(cfg: Config, y: System, y': System)
    requires GatewayMove(cfg, y, y') && FreshId(CutSystem(y), CutSystem(y'))
    requires y.w.cl.last != 0 ==> Low16(y.w.cl.last) != 0
    ensures TakenFresh(y, y')
  {
    if y'.run.snd.nextMsgId != y.run.snd.nextMsgId && y'.run.snd.curr.Some? {
      forall k | Low16(k) == Low16(y'.run.snd.fl.msgId) && k != y'.run.snd.fl.msgId ensures Elsewhere(y, y', k) {
        CutUnused(cfg, y, y', k);
      }
    }
  }

  lemma CutUnused(cfg: Config, y: System, y': System, k: nat)
    requires GatewayMove(cfg, y, y') && y'.run.snd.curr.Some? && k != y'.run.snd.fl.msgId
    requires Low16(k) == Low16(y'.run.snd.fl.msgId) && Unused(CutSystem(y), CutSystem(y'), Low16(k))
    requires y.w.cl.last != 0 ==> Low16(y.w.cl.last) != 0
    ensures Elsewhere(y, y', k)
  {
    hide Low16;
    var s, t := y.run.snd, y'.run.snd;
    CutUnanswered(y'.w.csent, y'.cRead, k);
    LowZero(k);
    forall j | y.w.gRead <= j < |t.sent| ensures !Carries(t.sent[j], k) {
      var m := CutSystem(y').run.snd.sent[j];
      assert m == CutMsg(t.sent[j]) && Numbered(m) == Numbered(t.sent[j]);
      assert |CutSystem(y).run.snd.sent| == |s.sent|;
      assert j < |s.sent| || !Numbered(m) ==> !Carries(m, Low16(k));
      assert |s.sent| <= j && Carries(t.sent[j], k) ==> OwnId(s, t, t.sent[j], k);
    }
  }

  /** Ids the client reported or remembers are ids of PUBLISHes, so not 0 when cut. */
  lemma ReportedLow(s: Sender, w: World, k: nat)
    requires Trace(s) && ReportsTrue(s, w) && Reported(w, k)
    ensures Low16(k) != 0
  {
    hide Low16;
    var x :| 0 <= x < |w.reports| && w.reports[x].msgId == k && w.reports[x].pub.qos == ExactlyOnce;
    assert Delivered(s.sent, w.gRead, w.reports[x]);
  }

  lemma LastLow(s: Sender, w: World)
    requires Inv(s, w)
    ensures w.cl.last != 0 ==> Low16(w.cl.last) != 0
  {
    hide Low16, Trace, ReportsTrue, Reported;
    if w.cl.last != 0 {
      ReportedLow(s, w, w.cl.last);
    }
  }

  lemma CutOpen(s: Sender, w: World, k: nat)
    ensures Open(s, w, k) ==> Open(CutSender(s), CutWorld(w), Low16(k))
  {
    hide Low16;
    if j :| w.gRead <= j < |s.sent| && IsPub(s.sent[j], k) {
      assert CutSender(s).sent[j] == CutMsg(s.sent[j]);
      assert IsPub(CutSender(s).sent[j], Low16(k));
    }
  }

  lemma RejectsLow(s: Sender, w: World, y: nat)
    requires Trace(s) && RejectionsFinal(s, w) && y < |w.csent| && Rejects(w.csent[y])
    ensures Low16(w.csent[y].msgId) != 0
  {
    hide Low16, Open, Reported;
    assert Refused(s.sent, w.gRead, w.csent[y]);
  }

  /** What the client may learn or forget by the cut ids it may by the numbers. */
  lemma CutTopics(y: System, mv: Move)
    requires Inv(y.run.snd, y.w) && MemoryStays(CutSystem(y), mv)
    ensures MemoryStays(y, mv)
  {
    hide Low16, Trace, RejectionsFinal, Open, Reported;
    var s, w := y.run.snd, y.w;
    LastLow(s, w);
    if mv.Learn? {
      forall i | 0 <= i < |w.csent| && Rejects(w.csent[i]) && Latest(w.csent, i) && Open(s, w, w.csent[i].msgId)
        ensures w.csent[i].topicId != mv.topicId
      {
        RejectsLow(s, w, i);
        CutOpen(s, w, w.csent[i].msgId);
        CutLatest(w, i);
        assert CutWorld(w).csent[i] == CutAck(w.csent[i]);
        assert Rejects(CutWorld(w).csent[i]);
      }
    } else if mv.Forget? {
      if w.cl.last != 0 {
        forall j | w.gRead <= j < |s.sent| && IsPub(s.sent[j], w.cl.last)
          ensures !(s.sent[j].kind == Normal && s.sent[j].topicId == mv.topicId)
        {
          assert CutSender(s).sent[j] == CutMsg(s.sent[j]);
          assert IsPub(CutSender(s).sent[j], Low16(w.cl.last));
        }
      }
    } else if mv.CleanConnect? {
      CutOpen(s, w, w.cl.last);
    }
  }

  lemma CutLatest(w: World, y: nat)
    requires y < |w.csent| && Latest(w.csent, y)
    ensures Latest(CutWorld(w).csent, y)
  {
    hide Low16;
    LowZero(0);
    forall z | y <= z < |w.csent| ensures CutWorld(w).csent[z].msgId == Low16(w.csent[z].msgId) {
      assert CutWorld(w).csent[z] == CutAck(w.csent[z]);
    }
  }

  /** A client move only moves ids on or drops them. */
  lemma ClientApart(y: System, v: World)
    requires ToldApart(y) && y.cRead <= |y.w.csent|
    requires forall k :: InTransit(y.(w := v), k) ==> InTransit(y, k)
    requires forall k :: Unread(y.run.snd.sent, v.gRead, k) || Unanswered(v.csent, y.cRead, k) ==>
               Unread(y.run.snd.sent, y.w.gRead, k) || Unanswered(y.w.csent, y.cRead, k)
    ensures ToldApart(y.(w := v))
  {
    hide Low16, Unread, Unanswered, InTransit;
  }

  lemma ReadMoves(y: System, accepts: Accepts, k: nat)
    requires y.w.gRead < |y.run.snd.sent|
    ensures var v := OnMessage(accepts, Skip(y.w), y.run.snd.sent[y.w.gRead]);
            && (InTransit(y.(w := v), k) ==> InTransit(y, k))
            && (Unread(y.run.snd.sent, v.gRead, k) || Unanswered(v.csent, y.cRead, k) ==>
                  Unread(y.run.snd.sent, y.w.gRead, k) || Unanswered(y.w.csent, y.cRead, k))
  {
    var m := y.run.snd.sent[y.w.gRead];
    var v := OnMessage(accepts, Skip(y.w), m);
    assert Carries(m, k) ==> Unread(y.run.snd.sent, y.w.gRead, k);
    assert v.csent == y.w.csent || (|v.csent| == |y.w.csent| + 1 && Carries(m, v.csent[|y.w.csent|].msgId));
    assert forall j :: 0 <= j < |y.w.csent| ==> v.csent[j] == y.w.csent[j];
    assert v.cl.last == 0 || v.cl.last == y.w.cl.last || Carries(m, v.cl.last);
  }

  ghost predicate Simulated(cfg: Config, y: System) {
    SysInv(Wide(cfg), y) && ToldApart(y) && y.cRead <= |y.w.csent|
  }

  lemma ClientSim(cfg: Config, accepts: Accepts, y: System)
    requires Simulated(cfg, y) && y.w.gRead < |y.run.snd.sent|
    ensures var v := OnMessage(accepts, Skip(y.w), y.run.snd.sent[y.w.gRead]);
            && OnMessage(accepts, Skip(CutWorld(y.w)), CutMsg(y.run.snd.sent[y.w.gRead])) == CutWorld(v)
            && ToldApart(y.(w := v))
  {
    hide Low16, Inv, Ledger, OnMessage;
    var m := y.run.snd.sent[y.w.gRead];
    LastLow(y.run.snd, y.w);
    ReadClear(y);
    assert Skip(CutWorld(y.w)) == CutWorld(Skip(y.w));
    CutMessage(accepts, Skip(y.w), m);
    var v := OnMessage(accepts, Skip(y.w), m);
    forall k
      ensures && (InTransit(y.(w := v), k) ==> InTransit(y, k))
              && (Unread(y.run.snd.sent, v.gRead, k) || Unanswered(v.csent, y.cRead, k) ==>
                    Unread(y.run.snd.sent, y.w.gRead, k) || Unanswered(y.w.csent, y.cRead, k))
    {
      ReadMoves(y, accepts, k);
    }
    ClientApart(y, v);
  }

  lemma ReadClear(y: System)
    requires ToldApart(y) && y.w.gRead < |y.run.snd.sent| && (y.w.cl.last != 0 ==> Low16(y.w.cl.last) != 0)
    ensures ClearTo(Skip(y.w), y.run.snd.sent[y.w.gRead])
  {
    hide Low16, ZeroFree;
    var m := y.run.snd.sent[y.w.gRead];
    if m.Publish? || m.Pubrel? {
      assert Carries(y.run.snd.sent[y.w.gRead], m.msgId);
      assert InTransit(y, m.msgId);
      assert y.w.cl.last != 0 ==> InTransit(y, y.w.cl.last);
    }
  }

  lemma AckClear(y: System)
    requires ToldApart(y) && y.cRead < |y.w.csent|
    ensures Clear(y.run.snd, y.w.csent[y.cRead].msgId)
  {
    hide Low16;
    var a := y.w.csent[y.cRead];
    assert Unanswered(y.w.csent, y.cRead, a.msgId);
    assert InTransit(y, a.msgId);
    assert y.run.snd.curr.Some? ==> InTransit(y, y.run.snd.fl.msgId);
  }

  lemma GatewayMoves(cfg: Config, accepts: Accepts, y: System, mv: Move)
    requires Inv(y.run.snd, y.w) && (mv.AtGateway? || mv.GatewayReads?)
    ensures GatewayMove(cfg, y, Next(cfg, accepts, y, mv))
  {
    hide Emits, Step, Trace, SentStarted, ReportsTrue, KnownWhileOpen, Remembered, RejectionsFinal, AcksTrue, SecondIds;
    EmitsNothing(cfg, y.run.snd, y.run.snd);
    if mv.AtGateway? {
      StepEmits(cfg, y.run, mv.e);
    } else if y.cRead < |y.w.csent| {
      StepEmits(cfg, y.run, EventOf(y.w.csent[y.cRead]));
    }
  }

  lemma EventIsAck(cfg: Config, r: Run, a: ToGateway)
    ensures Step(cfg, r, EventOf(a)) == r.(snd := OnAck(cfg, r.snd, a))
  {
    hide OnRegack, OnPuback, OnPubrec, OnPubcomp;
  }

  lemma CutReads(cfg: Config, accepts: Accepts, y: System)
    requires cfg.narrow && ToldApart(y) && y.cRead < |y.w.csent|
    ensures Next(cfg, accepts, CutSystem(y), GatewayReads) == CutSystem(Next(Wide(cfg), accepts, y, GatewayReads))
  {
    hide OnAck, Step, Low16, ToldApart;
    var a := y.w.csent[y.cRead];
    AckClear(y);
    CutAnswer(cfg, y.run.snd, a);
    EventIsAck(cfg, CutSystem(y).run, CutAck(a));
    EventIsAck(Wide(cfg), y.run, a);
    assert CutSystem(y).w.csent[y.cRead] == CutAck(a);
    assert Completes(CutSender(y.run.snd), CutAck(a)) == Completes(y.run.snd, a);
    assert Confirms(CutSender(y.run.snd), CutAck(a)) == Confirms(y.run.snd, a);
  }

  lemma CutStep(cfg: Config, r: Run, e: Event)
    requires cfg.narrow && !IsAck(e)
    ensures Step(cfg, r.(snd := CutSender(r.snd)), e) ==
            Step(Wide(cfg), r, e).(snd := CutSender(Step(Wide(cfg), r, e).snd))
  {
    hide Answer, Low16;
    if !e.Enqueue? {
      CutEvent(cfg, r.snd, e);
    }
  }

  /** A move with cut ids is the move of the full numbering, cut. */
  lemma NextSim(cfg: Config, accepts: Accepts, y: System, mv: Move)
    requires cfg.narrow && Simulated(cfg, y)
    ensures Next(cfg, accepts, CutSystem(y), mv) == CutSystem(Next(Wide(cfg), accepts, y, mv))
  {
    hide SysInv, ToldApart, Step, OnMessage;
    match mv
    case AtGateway(e) =>
      if !IsAck(e) {
        CutStep(cfg, y.run, e);
      }
    case GatewayReads =>
      if y.cRead < |y.w.csent| {
        CutReads(cfg, accepts, y);
      }
    case GatewayLoses =>
    case ClientReads =>
      if y.w.gRead < |y.run.snd.sent| {
        ClientSim(cfg, accepts, y);
        assert CutSystem(y).run.snd.sent[y.w.gRead] == CutMsg(y.run.snd.sent[y.w.gRead]);
      }
    case ClientLoses =>
    case Learn(_) =>
    case Forget(_) =>
    case CleanConnect =>
  }

  lemma LoseApart(y: System)
    requires ToldApart(y) && y.cRead <= |y.w.csent| && y.w.gRead < |y.run.snd.sent|
    ensures ToldApart(y.(w := Skip(y.w)))
  {
    hide ToldApart;
    ClientApart(y, Skip(y.w));
  }

  lemma AckLostApart(y: System)
    requires ToldApart(y) && y.cRead < |y.w.csent|
    ensures ToldApart(y.(cRead := y.cRead + 1))
  {
    hide Low16, Unread;
    var y' := y.(cRead := y.cRead + 1);
    assert forall k :: Unanswered(y'.w.csent, y'.cRead, k) ==> Unanswered(y.w.csent, y.cRead, k);
    assert forall k :: InTransit(y', k) ==> InTransit(y, k);
  }

  lemma TopicsApart(y: System, v: World)
    requires ToldApart(y) && y.cRead <= |y.w.csent| && v == y.w.(cl := v.cl)
    requires v.cl.last == 0 || v.cl.last == y.w.cl.last
    ensures ToldApart(y.(w := v))
  {
    hide ToldApart;
    ClientApart(y, v);
  }

  lemma GatewayApart(cfg: Config, accepts: Accepts, y: System, mv: Move)
    requires cfg.narrow && Simulated(cfg, y) && (mv.AtGateway? || mv.GatewayReads?)
    requires FreshId(CutSystem(y), Next(cfg, accepts, CutSystem(y), mv))
    ensures ToldApart(Next(Wide(cfg), accepts, y, mv))
  {
    hide ToldApart, Inv, Ledger, FreshId, TakenFresh, GatewayMove, Next, Low16;
    GatewayMoves(Wide(cfg), accepts, y, mv);
    NextSim(cfg, accepts, y, mv);
    LastLow(y.run.snd, y.w);
    CutFresh(Wide(cfg), y, Next(Wide(cfg), accepts, y, mv));
    StillApart(Wide(cfg), y, Next(Wide(cfg), accepts, y, mv));
  }

  lemma NextApart(cfg: Config, accepts: Accepts, y: System, mv: Move)
    requires cfg.narrow && Simulated(cfg, y) && FreshId(CutSystem(y), Next(cfg, accepts, CutSystem(y), mv))
    ensures ToldApart(Next(Wide(cfg), accepts, y, mv))
  {
    hide ToldApart, SysInv, FreshId, Step, OnMessage;
    match mv
    case AtGateway(_) => GatewayApart(cfg, accepts, y, mv);
    case GatewayReads => GatewayApart(cfg, accepts, y, mv);
    case GatewayLoses =>
      if y.cRead < |y.w.csent| {
        AckLostApart(y);
      }
    case ClientReads =>
      if y.w.gRead < |y.run.snd.sent| {
        ClientSim(cfg, accepts, y);
      }
    case ClientLoses =>
      if y.w.gRead < |y.run.snd.sent| {
        LoseApart(y);
      }
    case Learn(topicId) => TopicsApart(y, Learned(y.w, topicId));
    case Forget(topicId) => TopicsApart(y, Forgotten(y.w, topicId));
    case CleanConnect => TopicsApart(y, Cleaned(y.w));
  }

  lemma AcksStay(cfg: Config, accepts: Accepts, y: System, mv: Move)
    requires y.cRead <= |y.w.csent|
    ensures Next(cfg, accepts, y, mv).cRead <= |Next(cfg, accepts, y, mv).w.csent|
  {
    hide Step;
  }

  /** Along an orderly run the code does, with cut ids, what the full numbering does, and the joint invariant holds. */
  lemma {:induction false} PlaySim(cfg: Config, accepts: Accepts, y: System, mvs: seq<Move>)
    requires cfg.narrow && Simulated(cfg, y) && Orderly(cfg, accepts, CutSystem(y), mvs)
    ensures Play(cfg, accepts, CutSystem(y), mvs) == CutSystem(Play(Wide(cfg), accepts, y, mvs))
    ensures Simulated(cfg, Play(Wide(cfg), accepts, y, mvs))
    decreases |mvs|
  {
    hide SysInv, ToldApart, FreshId, MemoryStays, Next;
    if mvs != [] {
      var y' := Next(Wide(cfg), accepts, y, mvs[0]);
      NextSim(cfg, accepts, y, mvs[0]);
      NextApart(cfg, accepts, y, mvs[0]);
      AcksStay(Wide(cfg), accepts, y, mvs[0]);
      SysTopics(cfg, y, mvs[0]);
      NextInv(Wide(cfg), accepts, y, mvs[0]);
      PlaySim(cfg, accepts, y', mvs[1..]);
    }
  }

  lemma SysTopics(cfg: Config, y: System, mv: Move)
    requires SysInv(Wide(cfg), y) && MemoryStays(CutSystem(y), mv)
    ensures MemoryStays(y, mv)
  {
    hide Inv, Ledger, MemoryStays;
    CutTopics(y, mv);
  }

  lemma BeginSim(cfg: Config, known: set<nat>)
    requires cfg.narrow
    ensures Simulated(cfg, Begin(known)) && CutSystem(Begin(known)) == Begin(known)
  {
    hide SysInv;
    BeginInv(Wide(cfg), known);
  }

  lemma {:induction false} CutDeliveries(rs: seq<Report>, p: Pub)
    ensures Deliveries(Map(CutReport, rs), p) == Deliveries(rs, p)
  {
    if rs != [] {
      var n := |rs| - 1;
      CutDeliveries(rs[..n], p);
      assert Map(CutReport, rs)[..n] == Map(CutReport, rs[..n]);
      assert Map(CutReport, rs)[n] == CutReport(rs[n]);
    }
  }

  /** In every run of the code that takes fresh ids and in which the client learns and forgets topic ids and starts
      clean only when it is safe, whatever is lost and however often the gateway retransmits, each QoS 2 publication
      reaches the application at most once, and exactly once if the gateway retired it on a PUBCOMP. */
  lemma ExactlyOnceDelivery(cfg: Config, accepts: Accepts, known: set<nat>, mvs: seq<Move>, p: Pub)
    requires cfg.narrow && Orderly(cfg, accepts, Begin(known), mvs) && p.qos == ExactlyOnce
    ensures Deliveries(Play(cfg, accepts, Begin(known), mvs).w.reports, p) <= 1
    ensures p in Play(cfg, accepts, Begin(known), mvs).completed ==>
              Deliveries(Play(cfg, accepts, Begin(known), mvs).w.reports, p) == 1
  {
    hide Play, Orderly, Ledger, ToldApart, Trace, SentStarted, Remembered, RejectionsFinal, AcksTrue, SecondIds;
    hide KnownWhileOpen, WasReported, Deliveries;
    BeginSim(cfg, known);
    PlaySim(cfg, accepts, Begin(known), mvs);
    var y := Play(Wide(cfg), accepts, Begin(known), mvs);
    OneDelivery(y.w.reports, p);
    CutDeliveries(y.w.reports, p);
  }

  /** In such a run a QoS 1 publication that the gateway retired on an accepting PUBACK has reached the application. */
  lemma AtLeastOnceDelivery(cfg: Config, accepts: Accepts, known: set<nat>, mvs: seq<Move>, p: Pub)
    requires cfg.narrow && Orderly(cfg, accepts, Begin(known), mvs)
    requires p in Play(cfg, accepts, Begin(known), mvs).confirmed
    ensures p.qos == AtLeastOnce && 1 <= Deliveries(Play(cfg, accepts, Begin(known), mvs).w.reports, p)
  {
    hide Play, Orderly, Ledger, Inv, ToldApart, Deliveries;
    BeginSim(cfg, known);
    PlaySim(cfg, accepts, Begin(known), mvs);
    var y := Play(Wide(cfg), accepts, Begin(known), mvs);
    SomeDelivery(y.w.reports, p);
    CutDeliveries(y.w.reports, p);
  }

  lemma {:induction false} SomeDelivery(rs: seq<Report>, p: Pub)
    requires WasReported(rs, p)
    ensures 1 <= Deliveries(rs, p)
  {
    var front := rs[..|rs| - 1];
    if rs[|rs| - 1].pub != p {
      var x :| 0 <= x < |rs| && rs[x].pub == p;
      assert front[x].pub == p;
      SomeDelivery(front, p);
    }
  }

  /** Only QoS 2 publications are retired on a PUBCOMP. */
  lemma CompletedIsQosTwo(cfg: Config, accepts: Accepts, known: set<nat>, mvs: seq<Move>, p: Pub)
    requires cfg.narrow && Orderly(cfg, accepts, Begin(known), mvs)
    requires p in Play(cfg, accepts, Begin(known), mvs).completed
    ensures p.qos == ExactlyOnce
  {
    hide Play, Orderly, Ledger, Inv, ToldApart;
    BeginSim(cfg, known);
    PlaySim(cfg, accepts, Begin(known), mvs);
  }

  /* Runs with fewer than 2^16 ids */

  /** Every id in use was taken. */
  ghost predicate Taken(y: System) {
    y.w.gRead <= |y.run.snd.sent| && y.cRead <= |y.w.csent|
    && forall k: nat :: InTransit(y, k) ==> k <= y.run.snd.nextMsgId
  }

  lemma CurrentTaken(cfg: Config, y: System, y': System)
    requires Taken(y) && GatewayMove(cfg, y, y') && cfg.narrow && y'.run.snd.curr.Some?
    ensures y'.run.snd.fl.msgId <= y'.run.snd.nextMsgId
    ensures y.run.snd.nextMsgId < y'.run.snd.nextMsgId < ID_SPACE ==> y'.run.snd.fl.msgId == y'.run.snd.nextMsgId
  {
    assert y.run.snd.curr.Some? ==> InTransit(y, y.run.snd.fl.msgId);
  }

  lemma TakenAfter(cfg: Config, y: System, y': System)
    requires Taken(y) && GatewayMove(cfg, y, y') && cfg.narrow && y'.cRead <= |y.w.csent|
    ensures Taken(y')
  {
    hide Unread, Unanswered, InTransit;
    forall k: nat | InTransit(y', k) ensures k <= y'.run.snd.nextMsgId {
      if k != 0 {
        InTransitAfter(cfg, y, y', k);
        if y'.run.snd.curr.Some? {
          CurrentTaken(cfg, y, y');
        }
      }
    }
  }

  lemma FreshAfter(cfg: Config, y: System, y': System)
    requires Taken(y) && GatewayMove(cfg, y, y') && cfg.narrow && y'.run.snd.nextMsgId < ID_SPACE
    ensures FreshId(y, y')
  {
    var s, t := y.run.snd, y'.run.snd;
    if t.nextMsgId != s.nextMsgId && t.curr.Some? {
      CurrentTaken(cfg, y, y');
      assert y.w.cl.last != 0 ==> InTransit(y, y.w.cl.last);
      forall j: nat | y.w.gRead <= j < |t.sent| && (j < |s.sent| || !Numbered(t.sent[j]))
        ensures !Carries(t.sent[j], t.fl.msgId)
      {
        NotCarried(cfg, y, y', j);
      }
      if Unanswered(y'.w.csent, y'.cRead, t.fl.msgId) {
        UnansweredAfter(y, y', t.fl.msgId);
        assert InTransit(y, t.fl.msgId);
        assert false;
      }
    }
  }

  lemma NotCarried(cfg: Config, y: System, y': System, j: nat)
    requires Taken(y) && GatewayMove(cfg, y, y') && y.run.snd.nextMsgId < y'.run.snd.fl.msgId
    requires y.w.gRead <= j < |y'.run.snd.sent| && (j < |y.run.snd.sent| || !Numbered(y'.run.snd.sent[j]))
    ensures !Carries(y'.run.snd.sent[j], y'.run.snd.fl.msgId)
  {
    var s, t := y.run.snd, y'.run.snd;
    if j < |s.sent| {
      assert t.sent[j] == s.sent[j];
      assert Carries(s.sent[j], t.fl.msgId) ==> Unread(s.sent, y.w.gRead, t.fl.msgId);
      assert Unread(s.sent, y.w.gRead, t.fl.msgId) ==> InTransit(y, t.fl.msgId);
    } else {
      assert Carries(t.sent[j], t.fl.msgId) ==> OwnId(s, t, t.sent[j], t.fl.msgId);
    }
  }

  lemma ClientTaken(accepts: Accepts, y: System)
    requires Taken(y) && y.w.gRead < |y.run.snd.sent|
    ensures Taken(y.(w := OnMessage(accepts, Skip(y.w), y.run.snd.sent[y.w.gRead])))
  {
    hide OnMessage, InTransit;
    var v := OnMessage(accepts, Skip(y.w), y.run.snd.sent[y.w.gRead]);
    forall k: nat | InTransit(y.(w := v), k) ensures k <= y.run.snd.nextMsgId {
      ReadMoves(y, accepts, k);
    }
    ClientReadsOne(accepts, y);
  }

  lemma ClientReadsOne(accepts: Accepts, y: System)
    requires y.w.gRead < |y.run.snd.sent|
    ensures var v := OnMessage(accepts, Skip(y.w), y.run.snd.sent[y.w.gRead]);
            v.gRead == y.w.gRead + 1 && |y.w.csent| <= |v.csent|
  {
  }

  lemma LossTaken(y: System, y': System)
    requires Taken(y) && y'.run == y.run && y'.w.cl.last == y.w.cl.last && y'.w.csent == y.w.csent
    requires y.w.gRead <= y'.w.gRead <= |y.run.snd.sent| && y.cRead <= y'.cRead <= |y.w.csent|
    ensures Taken(y')
  {
    assert forall k: nat :: InTransit(y', k) ==> InTransit(y, k);
  }

  lemma GatewayMovesOn(cfg: Config, accepts: Accepts, y: System, mv: Move)
    requires Taken(y) && (mv.AtGateway? || mv.GatewayReads?)
    ensures GatewayMove(cfg, y, Next(cfg, accepts, y, mv))
    ensures Next(cfg, accepts, y, mv).cRead <= |y.w.csent|
  {
    hide Emits, Step, InTransit;
    EmitsNothing(cfg, y.run.snd, y.run.snd);
    if mv.AtGateway? {
      StepEmits(cfg, y.run, mv.e);
    } else if y.cRead < |y.w.csent| {
      StepEmits(cfg, y.run, EventOf(y.w.csent[y.cRead]));
    }
  }

  predicate ChangesMemory(mv: Move) {
    mv.Learn? || mv.Forget? || mv.CleanConnect?
  }

  lemma NextTaken(cfg: Config, accepts: Accepts, y: System, mv: Move)
    requires Taken(y) && cfg.narrow && !ChangesMemory(mv)
    ensures var y' := Next(cfg, accepts, y, mv);
            && Taken(y') && y.run.snd.nextMsgId <= y'.run.snd.nextMsgId
            && (y'.run.snd.nextMsgId < ID_SPACE ==> FreshId(y, y'))
  {
    hide Step, OnMessage, Taken, FreshId;
    var y' := Next(cfg, accepts, y, mv);
    if mv.AtGateway? || mv.GatewayReads? {
      GatewayMovesOn(cfg, accepts, y, mv);
      TakenAfter(cfg, y, y');
      if y'.run.snd.nextMsgId < ID_SPACE {
        FreshAfter(cfg, y, y');
      }
    } else {
      NoIdTaken(y, y');
      if mv.ClientReads? && y.w.gRead < |y.run.snd.sent| {
        ClientTaken(accepts, y);
      } else {
        TakenBounds(y);
        LossTaken(y, y');
      }
    }
  }

  lemma TakenBounds(y: System)
    requires Taken(y)
    ensures y.w.gRead <= |y.run.snd.sent| && y.cRead <= |y.w.csent|
  {
  }

  lemma NoIdTaken(y: System, y': System)
    ensures y'.run == y.run ==> FreshId(y, y')
  {
  }

  lemma {:induction false} FewIdsOrderly(cfg: Config, accepts: Accepts, y: System, mvs: seq<Move>)
    requires Taken(y) && cfg.narrow && forall mv :: mv in mvs ==> !ChangesMemory(mv)
    ensures y.run.snd.nextMsgId <= Play(cfg, accepts, y, mvs).run.snd.nextMsgId
    ensures Play(cfg, accepts, y, mvs).run.snd.nextMsgId < ID_SPACE ==> Orderly(cfg, accepts, y, mvs)
    decreases |mvs|
  {
    hide Taken, FreshId, Next;
    if mvs != [] {
      NextTaken(cfg, accepts, y, mvs[0]);
      FewIdsOrderly(cfg, accepts, Next(cfg, accepts, y, mvs[0]), mvs[1..]);
    }
  }

  /** A run that takes fewer than 2^16 ids takes fresh ones only, so with a client that learns topic ids from REGISTER
      messages only delivery is exactly once. */
  lemma FewIds(cfg: Config, accepts: Accepts, known: set<nat>, mvs: seq<Move>)
    requires cfg.narrow && forall mv :: mv in mvs ==> !ChangesMemory(mv)
    requires Play(cfg, accepts, Begin(known), mvs).run.snd.nextMsgId < ID_SPACE
    ensures Orderly(cfg, accepts, Begin(known), mvs)
  {
    FewIdsOrderly(cfg, accepts, Begin(known), mvs);
  }
}
