/**
 * The client's publish operation from `send` on: REGISTER, PUBLISH and PUBREL with retries, and the
 * fall back to registration when the gateway rejects the topic id.
 *
 * The functions on `Op` say what each entry point does and the class does it in steps.  `log` is what
 * the operation saw and sent; `Restart` marks the begin of a new registration cycle.  Whether a
 * message can be sent (`ok`) and which packet ids are handed out are inputs.
 */
module SendOp {
  import opened Protocol

  datatype Stage = StageRegister | StagePublish | StageAcked

  datatype Status = Complete | TimedOut | Aborted | SendFailed

  datatype Item =
    | GotRegack(regackId: nat, accepted: bool)
    | GotPuback(pubackId: nat, rc: ReturnCode)
    | GotPubrec(pubrecId: nat)
    | GotPubcomp(pubcompId: nat)
    | Restart
    | Register(regId: nat)
    | Publish(msgId: nat, topicId: nat, dup: bool)
    | Pubrel(relId: nat)

  /** Fixed by `config` and `send`. */
  datatype Config = Config(qos: Qos, topicKind: TopicIdKind, retries: nat)

  /** The fields of the REGISTER and PUBLISH messages that change. */
  datatype Msgs = Msgs(regId: nat, pubId: nat, topicId: nat, dup: bool)

  datatype Op = Op(stage: Stage, msgs: Msgs, retryCount: nat, fullRetryRemCount: nat, suspended: bool,
                   armed: bool, status: Option<Status>, log: seq<Item>)

  predicate IsValidTopicId(id: nat) {
    id != 0 && id != 0xffff
  }

  /* What each entry point does */

  function Finish(s: Op, status: Status): Op {
    s.(status := Some(status), armed := false)
  }

  function Say(s: Op, item: Item): Op {
    s.(log := s.log + [item], armed := true)
  }

  function MarkDup(c: Config, s: Op): Op {
    if s.retryCount < c.retries then s.(msgs := s.msgs.(dup := true)) else s
  }

  /** `sendInternal` and what every caller does with its result. */
  function SendInternal(c: Config, s: Op, ok: bool): Op {
    if s.suspended then s
    else
      match s.stage
      case StageRegister => if ok then Say(s, Register(s.msgs.regId)) else Finish(s, SendFailed)
      case StagePublish =>
        var marked := MarkDup(c, s);
        if !ok then Finish(marked, SendFailed)
        else
          var said := Say(marked, Publish(marked.msgs.pubId, marked.msgs.topicId, marked.msgs.dup));
          if c.qos == AtMostOnce then Finish(said, Complete) else said
      case StageAcked => if ok then Say(s, Pubrel(s.msgs.pubId)) else Finish(s, SendFailed)
  }

  /** The operation as `send` finds it: configured, with its ids, in its first stage. */
  function Initial(c: Config, stage: Stage, regId: nat, pubId: nat, topicId: nat, suspended: bool): Op {
    Op(stage, Msgs(regId, pubId, topicId, false), c.retries, c.retries, suspended, false, None, [])
  }

  function OnResume(c: Config, s: Op, ok: bool): Op {
    if !s.suspended then s else SendInternal(c, s.(suspended := false), ok)
  }

  function OnTimeout(c: Config, s: Op, ok: bool): Op {
    if !s.armed then s
    else if s.retryCount == 0 then Finish(s, TimedOut)
    else SendInternal(c, s.(armed := false, retryCount := s.retryCount - 1), ok)
  }

  function Saw(s: Op, item: Item): Op {
    s.(log := s.log + [item])
  }

  function OnRegack(c: Config, s: Op, msgId: nat, accepted: bool, topicId: nat, ok: bool): Op {
    var s := Saw(s, GotRegack(msgId, accepted));
    if s.suspended || s.stage != StageRegister || msgId != s.msgs.regId then s
    else if !accepted then Finish(s, Complete)
    else if !IsValidTopicId(topicId) then s
    else SendInternal(c, s.(stage := StagePublish, msgs := s.msgs.(topicId := topicId), retryCount := c.retries), ok)
  }

  /** Back to registration with new packet ids. */
  function Again(c: Config, s: Op, regId: nat, pubId: nat): Op
    requires s.fullRetryRemCount > 0
  {
    s.(fullRetryRemCount := s.fullRetryRemCount - 1, stage := StageRegister,
       msgs := s.msgs.(dup := false, regId := regId, pubId := if c.qos == AtMostOnce then s.msgs.pubId else pubId),
       retryCount := c.retries, log := s.log + [Restart])
  }

  function OnPuback(c: Config, s: Op, msgId: nat, topicId: nat, rc: ReturnCode, ok: bool, regId: nat, pubId: nat): Op {
    var s := Saw(s, GotPuback(msgId, rc));
    if s.suspended || s.stage == StageRegister || msgId != s.msgs.pubId || topicId != s.msgs.topicId then s
    else if rc == Accepted && c.qos != AtLeastOnce then s
    else if rc == InvalidTopicId && c.topicKind == Normal && s.fullRetryRemCount != 0 then
      SendInternal(c, Again(c, s, regId, pubId), ok)
    else Finish(s, Complete)
  }

  function OnPubrec(c: Config, s: Op, msgId: nat, ok: bool): Op {
    var s := Saw(s, GotPubrec(msgId));
    if s.suspended || s.stage == StageRegister || msgId != s.msgs.pubId || c.qos != ExactlyOnce then s
    else SendInternal(c, s.(stage := StageAcked, retryCount := c.retries), ok)
  }

  function OnPubcomp(s: Op, msgId: nat): Op {
    var s := Saw(s, GotPubcomp(msgId));
    if s.suspended || s.stage != StageAcked || msgId != s.msgs.pubId then s else Finish(s, Complete)
  }

  /* Runs */

  datatype Event =
    | Resume(ok: bool)
    | Timeout(ok: bool)
    | Regack(msgId: nat, accepted: bool, topicId: nat, ok: bool)
    | Puback(msgId: nat, topicId: nat, rc: ReturnCode, ok: bool, regId: nat, pubId: nat)
    | Pubrec(msgId: nat, ok: bool)
    | Pubcomp(msgId: nat)
    | Terminate

  /** A completed operation is destroyed and takes no more events. */
  function Step(c: Config, s: Op, e: Event): Op {
    if s.status.Some? then s
    else
      match e
      case Resume(ok) => OnResume(c, s, ok)
      case Timeout(ok) => OnTimeout(c, s, ok)
      case Regack(msgId, accepted, topicId, ok) => OnRegack(c, s, msgId, accepted, topicId, ok)
      case Puback(msgId, topicId, rc, ok, regId, pubId) => OnPuback(c, s, msgId, topicId, rc, ok, regId, pubId)
      case Pubrec(msgId, ok) => OnPubrec(c, s, msgId, ok)
      case Pubcomp(msgId) => OnPubcomp(s, msgId)
      case Terminate => Finish(s, Aborted)
  }

  function Exec(c: Config, s: Op, events: seq<Event>): Op
    decreases |events|
  {
    if events == [] then s else Exec(c, Step(c, s, events[0]), events[1..])
  }

  /* What the log says */

  function Front(log: seq<Item>): seq<Item>
    requires log != []
  {
    log[..|log| - 1]
  }

  function Last(log: seq<Item>): Item
    requires log != []
  {
    log[|log| - 1]
  }

  /** The packet id of the last PUBLISH of the present registration cycle. */
  function Published(log: seq<Item>): Option<nat> {
    if log == [] || Last(log).Restart? then None
    else if Last(log).Publish? then Some(Last(log).msgId)
    else Published(Front(log))
  }

  /** The packet id of the last REGISTER of the present registration cycle. */
  function Registering(log: seq<Item>): Option<nat> {
    if log == [] || Last(log).Restart? then None
    else if Last(log).Register? then Some(Last(log).regId)
    else Registering(Front(log))
  }

  /** In this cycle a PUBREC with id `id` came after a PUBLISH with that id. */
  predicate Received(log: seq<Item>, id: nat) {
    && log != [] && !Last(log).Restart?
    && ((Last(log) == GotPubrec(id) && Published(Front(log)) == Some(id)) || Received(Front(log), id))
  }

  function Restarts(log: seq<Item>): nat {
    if log == [] then 0 else Restarts(Front(log)) + (if Last(log).Restart? then 1 else 0)
  }

  /** DUP is set on exactly the PUBLISH messages that repeat one of the same registration cycle. */
  ghost predicate DupExact(log: seq<Item>) {
    forall i :: 0 <= i < |log| && log[i].Publish? ==> (log[i].dup <==> Published(log[..i]).Some?)
  }

  /** Every PUBREL follows a PUBREC for the PUBLISH that is under way. */
  ghost predicate PubrelAnswers(log: seq<Item>) {
    forall i :: 0 <= i < |log| && log[i].Pubrel? ==>
      Received(log[..i], log[i].relId) && Published(log[..i]) == Some(log[i].relId)
  }

  /** Every fall back to registration directly follows a rejection of the topic id of the PUBLISH under way. */
  ghost predicate RestartAnswers(c: Config, log: seq<Item>) {
    forall i :: 0 <= i < |log| && log[i].Restart? ==> RestartDue(c, log[..i])
  }

  predicate RestartDue(c: Config, log: seq<Item>) {
    && c.topicKind == Normal && log != [] && Last(log).GotPuback? && Last(log).rc == InvalidTopicId
    && Published(Front(log)) == Some(Last(log).pubackId)
  }

  ghost predicate LogTrue(c: Config, log: seq<Item>) {
    DupExact(log) && PubrelAnswers(log) && RestartAnswers(c, log)
  }

  /**
   * What lets the operation report completion: a QoS 0 PUBLISH went out, the gateway refused the
   * registration under way, it answered the PUBLISH under way with a PUBACK, or it confirmed the PUBREL.
   */
  predicate Settled(c: Config, log: seq<Item>) {
    && log != []
    && match Last(log)
       case Publish(_, _, _) => c.qos == AtMostOnce
       case GotRegack(id, accepted) => !accepted && Registering(Front(log)) == Some(id)
       case GotPuback(id, rc) => Published(Front(log)) == Some(id) && (rc == Accepted ==> c.qos == AtLeastOnce)
       case GotPubcomp(id) => c.qos == ExactlyOnce && Received(Front(log), id)
       case _ => false
  }

  ghost predicate Inv(c: Config, s: Op) {
    && s.retryCount <= c.retries && Restarts(s.log) + s.fullRetryRemCount == c.retries
    && LogTrue(c, s.log)
    && (s.status.None? ==> Live(c, s)) && (s.status == Some(Complete) ==> Settled(c, s.log))
  }

  ghost predicate Live(c: Config, s: Op) {
    && (s.armed <==> !s.suspended)
    && (s.suspended || s.stage == StageRegister ==> Published(s.log) == None && !s.msgs.dup)
    && (s.suspended ==> s.retryCount == c.retries && s.stage != StageAcked)
    && (!s.suspended && s.stage != StageRegister ==> Published(s.log) == Some(s.msgs.pubId))
    && (!s.suspended && s.stage == StageRegister ==> Registering(s.log) == Some(s.msgs.regId))
    && (s.stage == StageAcked ==> Received(s.log, s.msgs.pubId) && c.qos == ExactlyOnce)
  }

  lemma LogGrows(c: Config, log: seq<Item>, item: Item)
    requires LogTrue(c, log) && (item.Restart? ==> RestartDue(c, log))
    requires item.Publish? ==> (item.dup <==> Published(log).Some?)
    requires item.Pubrel? ==> Received(log, item.relId) && Published(log) == Some(item.relId)
    ensures LogTrue(c, log + [item])
    ensures Front(log + [item]) == log && Last(log + [item]) == item
  {
    var log' := log + [item];
    forall i | 0 <= i <= |log| ensures log'[..i] == log[..i] {
    }
    assert log[..|log|] == log;
  }

  /** What holds when `sendInternal` is called on an operation that is not suspended. */
  ghost predicate Ready(c: Config, s: Op) {
    && s.status.None? && !s.suspended
    && s.retryCount <= c.retries && Restarts(s.log) + s.fullRetryRemCount == c.retries
    && LogTrue(c, s.log)
    && match s.stage
       case StageRegister => Published(s.log) == None && !s.msgs.dup
       case StagePublish =>
         if s.retryCount < c.retries then Published(s.log).Some? else Published(s.log).None? && !s.msgs.dup
       case StageAcked =>
         Received(s.log, s.msgs.pubId) && Published(s.log) == Some(s.msgs.pubId) && c.qos == ExactlyOnce
  }

  lemma SendRegisterKeeps(c: Config, s: Op)
    requires Ready(c, s) && s.stage == StageRegister
    ensures Inv(c, Say(s, Register(s.msgs.regId)))
  {
    hide LogTrue;
    LogGrows(c, s.log, Register(s.msgs.regId));
  }

  lemma SendPublishKeeps(c: Config, s: Op)
    requires Ready(c, s) && s.stage == StagePublish
    ensures Inv(c, SendInternal(c, s, true))
  {
    hide LogTrue;
    LogGrows(c, s.log, Publish(s.msgs.pubId, s.msgs.topicId, MarkDup(c, s).msgs.dup));
  }

  lemma SendPubrelKeeps(c: Config, s: Op)
    requires Ready(c, s) && s.stage == StageAcked
    ensures Inv(c, Say(s, Pubrel(s.msgs.pubId)))
  {
    hide LogTrue;
    LogGrows(c, s.log, Pubrel(s.msgs.pubId));
  }

  lemma SendFailedKeeps(c: Config, s: Op)
    requires Ready(c, s)
    ensures Inv(c, Finish(s, SendFailed)) && Inv(c, Finish(MarkDup(c, s), SendFailed))
  {
    hide LogTrue, Settled, Live, Restarts;
  }

  lemma SendInternalKeeps(c: Config, s: Op, ok: bool)
    requires Ready(c, s)
    ensures Inv(c, SendInternal(c, s, ok))
  {
    hide Inv, Say, Finish, MarkDup;
    if !ok {
      SendFailedKeeps(c, s);
    } else {
      match s.stage
      case StageRegister => SendRegisterKeeps(c, s);
      case StagePublish => SendPublishKeeps(c, s);
      case StageAcked => SendPubrelKeeps(c, s);
    }
  }

  /** Seeing a message changes nothing by itself. */
  lemma SawKeeps(c: Config, s: Op, item: Item)
    requires Inv(c, s) && s.status.None?
    requires item.GotRegack? || item.GotPuback? || item.GotPubrec? || item.GotPubcomp?
    ensures Inv(c, Saw(s, item)) && Published(Saw(s, item).log) == Published(s.log)
    ensures Front(Saw(s, item).log) == s.log && Last(Saw(s, item).log) == item
    ensures item.GotPubrec? && Published(s.log) == Some(item.pubrecId) ==> Received(Saw(s, item).log, item.pubrecId)
  {
    LogGrows(c, s.log, item);
  }

  lemma InitialInv(c: Config, stage: Stage, regId: nat, pubId: nat, topicId: nat, suspended: bool, ok: bool)
    requires stage != StageAcked
    ensures Inv(c, SendInternal(c, Initial(c, stage, regId, pubId, topicId, suspended), ok))
  {
    if !suspended {
      SendInternalKeeps(c, Initial(c, stage, regId, pubId, topicId, suspended), ok);
    }
  }

  lemma RegackKeeps(c: Config, s: Op, msgId: nat, accepted: bool, topicId: nat, ok: bool)
    requires Inv(c, s) && s.status.None?
    ensures Inv(c, OnRegack(c, s, msgId, accepted, topicId, ok))
  {
    SawKeeps(c, s, GotRegack(msgId, accepted));
    var s := Saw(s, GotRegack(msgId, accepted));
    if !s.suspended && s.stage == StageRegister {
      SendInternalKeeps(c, s.(stage := StagePublish, msgs := s.msgs.(topicId := topicId), retryCount := c.retries), ok);
    }
  }

  lemma PubackKeeps(c: Config, s: Op, msgId: nat, topicId: nat, rc: ReturnCode, ok: bool, regId: nat, pubId: nat)
    requires Inv(c, s) && s.status.None?
    ensures Inv(c, OnPuback(c, s, msgId, topicId, rc, ok, regId, pubId))
  {
    SawKeeps(c, s, GotPuback(msgId, rc));
    var s := Saw(s, GotPuback(msgId, rc));
    if !s.suspended && s.stage != StageRegister && msgId == s.msgs.pubId && rc == InvalidTopicId
       && c.topicKind == Normal && s.fullRetryRemCount != 0 {
      LogGrows(c, s.log, Restart);
      SendInternalKeeps(c, Again(c, s, regId, pubId), ok);
    }
  }

  lemma PubrecKeeps(c: Config, s: Op, msgId: nat, ok: bool)
    requires Inv(c, s) && s.status.None?
    ensures Inv(c, OnPubrec(c, s, msgId, ok))
  {
    SawKeeps(c, s, GotPubrec(msgId));
    var s := Saw(s, GotPubrec(msgId));
    if !s.suspended && s.stage != StageRegister && msgId == s.msgs.pubId && c.qos == ExactlyOnce {
      SendInternalKeeps(c, s.(stage := StageAcked, retryCount := c.retries), ok);
    }
  }

  lemma TimeoutKeeps(c: Config, s: Op, ok: bool)
    requires Inv(c, s) && s.status.None?
    ensures Inv(c, OnTimeout(c, s, ok))
  {
    if s.armed && s.retryCount != 0 {
      SendInternalKeeps(c, s.(armed := false, retryCount := s.retryCount - 1), ok);
    }
  }

  lemma StepKeeps(c: Config, s: Op, e: Event)
    requires Inv(c, s)
    ensures Inv(c, Step(c, s, e))
  {
    hide Inv, Live, OnRegack, OnPuback, OnPubrec, OnTimeout;
    if s.status.None? {
      match e
      case Resume(ok) => ResumeKeeps(c, s, ok);
      case Timeout(ok) => TimeoutKeeps(c, s, ok);
      case Regack(msgId, accepted, topicId, ok) => RegackKeeps(c, s, msgId, accepted, topicId, ok);
      case Puback(msgId, topicId, rc, ok, regId, pubId) => PubackKeeps(c, s, msgId, topicId, rc, ok, regId, pubId);
      case Pubrec(msgId, ok) => PubrecKeeps(c, s, msgId, ok);
      case Pubcomp(msgId) => PubcompKeeps(c, s, msgId);
      case Terminate => FinishKeeps(c, s, Aborted);
    }
  }

  lemma FinishKeeps(c: Config, s: Op, status: Status)
    requires Inv(c, s) && status != Complete
    ensures Inv(c, Finish(s, status))
  {
  }

  lemma PubcompKeeps(c: Config, s: Op, msgId: nat)
    requires Inv(c, s) && s.status.None?
    ensures Inv(c, OnPubcomp(s, msgId))
  {
    SawKeeps(c, s, GotPubcomp(msgId));
  }

  lemma ResumeKeeps(c: Config, s: Op, ok: bool)
    requires Inv(c, s) && s.status.None?
    ensures Inv(c, OnResume(c, s, ok))
  {
    if s.suspended {
      SendInternalKeeps(c, s.(suspended := false), ok);
    }
  }

  lemma {:induction false} ExecKeeps(c: Config, s: Op, events: seq<Event>)
    requires Inv(c, s)
    ensures Inv(c, Exec(c, s, events))
    decreases |events|
  {
    if events != [] {
      StepKeeps(c, s, events[0]);
      ExecKeeps(c, Step(c, s, events[0]), events[1..]);
    }
  }

  /**
   * Every run of a publish operation, under any messages from the gateway: DUP is exact, PUBREL only
   * answers a PUBREC for its own PUBLISH, and it falls back to registration only when the gateway rejects
   * the topic id of its own PUBLISH, at most `retries` times.
   */
  lemma PublishRun(c: Config, stage: Stage, regId: nat, pubId: nat, topicId: nat, suspended: bool, ok: bool,
                   events: seq<Event>)
    requires stage != StageAcked
    ensures var s := Exec(c, SendInternal(c, Initial(c, stage, regId, pubId, topicId, suspended), ok), events);
            && DupExact(s.log) && PubrelAnswers(s.log) && RestartAnswers(c, s.log) && Restarts(s.log) <= c.retries
            && (s.status == Some(Complete) ==> Settled(c, s.log))
            && (s.status.None? && !s.suspended ==> s.armed)
  {
    InitialInv(c, stage, regId, pubId, topicId, suspended, ok);
    ExecKeeps(c, SendInternal(c, Initial(c, stage, regId, pubId, topicId, suspended), ok), events);
  }

  /** With a gateway that answers, the operation gets through: each answer leads to the next message, the last to
      completion. */
  lemma Cooperation(c: Config, s: Op, topicId: nat)
    requires Inv(c, s) && s.status.None? && !s.suspended && IsValidTopicId(topicId)
    ensures s.stage == StageRegister ==>
              var t := OnRegack(c, s, s.msgs.regId, true, topicId, true);
              && t.log == s.log + [GotRegack(s.msgs.regId, true), Publish(s.msgs.pubId, topicId, false)]
              && t.status == (if c.qos == AtMostOnce then Some(Complete) else None)
              && t.stage == StagePublish && t.msgs == s.msgs.(topicId := topicId) && t.retryCount == c.retries
    ensures s.stage == StagePublish && c.qos == AtLeastOnce ==>
              OnPuback(c, s, s.msgs.pubId, s.msgs.topicId, Accepted, true, 0, 0).status == Some(Complete)
    ensures s.stage != StageRegister && c.qos == ExactlyOnce ==>
              var t := OnPubrec(c, s, s.msgs.pubId, true);
              && t.log == s.log + [GotPubrec(s.msgs.pubId), Pubrel(s.msgs.pubId)] && t.status.None?
              && t.stage == StageAcked && t.retryCount == c.retries && t.msgs == s.msgs
              && OnPubcomp(t, s.msgs.pubId).status == Some(Complete)
  {
  }

  /**
   * A refusal of the PUBLISH under way: one of its topic id leads back to registration with the new packet
   * ids while a full retry is left, and every other one ends the operation.
   */
  lemma Refusals(c: Config, s: Op, rc: ReturnCode, ok: bool, regId: nat, pubId: nat)
    requires Inv(c, s) && s.status.None? && !s.suspended && s.stage != StageRegister && rc != Accepted
    ensures var t := OnPuback(c, s, s.msgs.pubId, s.msgs.topicId, rc, ok, regId, pubId);
            if rc == InvalidTopicId && c.topicKind == Normal && Restarts(s.log) < c.retries
            then
              && t.log == s.log + [GotPuback(s.msgs.pubId, rc), Restart] + (if ok then [Register(regId)] else [])
              && t.status == (if ok then None else Some(SendFailed))
              && t.stage == StageRegister && t.retryCount == c.retries
              && (c.qos != AtMostOnce ==> t.msgs.pubId == pubId)
            else t.log == s.log + [GotPuback(s.msgs.pubId, rc)] && t.status == Some(Complete)
    ensures s.stage != StageRegister && c.qos == ExactlyOnce ==>
              var t := OnPuback(c, s, s.msgs.pubId, s.msgs.topicId, Accepted, ok, regId, pubId);
              t.status.None? && t.log == s.log + [GotPuback(s.msgs.pubId, Accepted)]
  {
    hide LogTrue, Live, Settled;
  }

  /** A refused registration ends the operation; an accepted one with an unusable topic id is passed over. */
  lemma RegistrationRefused(c: Config, s: Op, topicId: nat, ok: bool)
    requires s.status.None? && !s.suspended && s.stage == StageRegister
    ensures OnRegack(c, s, s.msgs.regId, false, topicId, ok) ==
            s.(log := s.log + [GotRegack(s.msgs.regId, false)], status := Some(Complete), armed := false)
    ensures !IsValidTopicId(topicId) ==>
              OnRegack(c, s, s.msgs.regId, true, topicId, ok) == s.(log := s.log + [GotRegack(s.msgs.regId, true)])
  {
  }

  /**
   * What belongs to another operation, or comes out of turn, is passed over: an answer matters only if it carries the
   * packet id of the last REGISTER, or the packet and topic id of the last PUBLISH, of the present cycle.
   */
  lemma OthersPassOver(c: Config, s: Op, e: Event)
    requires Inv(c, s) && s.status.None?
    requires match e
             case Regack(msgId, _, _, _) => Registering(s.log) != Some(msgId)
             case Puback(msgId, topicId, _, _, _, _) => Published(s.log) != Some(msgId) || topicId != s.msgs.topicId
             case Pubrec(msgId, _) => Published(s.log) != Some(msgId) || c.qos != ExactlyOnce
             case Pubcomp(msgId) => !Received(s.log, msgId) || Published(s.log) != Some(msgId)
             case _ => false
    ensures Step(c, s, e) == s.(log := Step(c, s, e).log) && |Step(c, s, e).log| == |s.log| + 1
    ensures Front(Step(c, s, e).log) == s.log && !Step(c, s, e).log[|s.log|].Restart?
  {
    hide LogTrue, Settled;
  }

  /**
   * A timeout repeats the message of the stage while a retry is left, with DUP on a PUBLISH, and ends the operation
   * when none is.
   */
  lemma TimeoutRepeats(c: Config, s: Op)
    requires Inv(c, s) && s.status.None? && !s.suspended
    ensures var t := OnTimeout(c, s, true);
            if s.retryCount == 0 then t.status == Some(TimedOut) && t.log == s.log
            else
              && t.log == s.log + [match s.stage
                                   case StageRegister => Register(s.msgs.regId)
                                   case StagePublish => Publish(s.msgs.pubId, s.msgs.topicId, true)
                                   case StageAcked => Pubrel(s.msgs.pubId)]
              && t.stage == s.stage && t.retryCount == s.retryCount - 1
              && t.status == (if s.stage == StagePublish && c.qos == AtMostOnce then Some(Complete) else None)
    ensures OnTimeout(c, s, false).status == Some(if s.retryCount == 0 then TimedOut else SendFailed)
  {
    hide LogTrue, Settled;
  }

  /** An operation that may run sends its first message at once, and one that waits when it is resumed, with all its
      retries. */
  lemma FirstSend(c: Config, stage: Stage, regId: nat, pubId: nat, topicId: nat)
    requires stage != StageAcked
    ensures var first := if stage == StageRegister then Register(regId) else Publish(pubId, topicId, false);
            var waiting := SendInternal(c, Initial(c, stage, regId, pubId, topicId, true), true);
            var s := SendInternal(c, Initial(c, stage, regId, pubId, topicId, false), true);
            && waiting.log == [] && waiting.status.None? && s == OnResume(c, waiting, true)
            && s.log == [first] && s.retryCount == c.retries && Restarts(s.log) == 0
            && s.status == (if stage == StagePublish && c.qos == AtMostOnce then Some(Complete) else None)
  {
  }

  function Silence(oks: seq<bool>): seq<Event> {
    if oks == [] then [] else [Timeout(oks[0])] + Silence(oks[1..])
  }

  /** Left alone, the operation ends: with the timeout after the last retry at the latest. */
  lemma {:induction false} SilenceEnds(c: Config, s: Op, oks: seq<bool>)
    requires Inv(c, s) && !s.suspended
    ensures s.retryCount < |oks| ==> Exec(c, s, Silence(oks)).status.Some?
    ensures var kept := s.status.None? && |oks| <= s.retryCount && forall i :: 0 <= i < |oks| ==> oks[i];
            kept && (c.qos != AtMostOnce || s.stage != StagePublish) ==> Exec(c, s, Silence(oks)).status.None?
    decreases |oks|
  {
    if oks != [] {
      var s' := Step(c, s, Timeout(oks[0]));
      StepKeeps(c, s, Timeout(oks[0]));
      assert Silence(oks)[1..] == Silence(oks[1..]);
      SilenceEnds(c, s', oks[1..]);
      if s.status.Some? {
        EndedStays(c, s', Silence(oks[1..]));
      }
      if s'.status.Some? {
        EndedStays(c, s', Silence(oks[1..]));
      }
    }
  }

  lemma {:induction false} EndedStays(c: Config, s: Op, events: seq<Event>)
    requires s.status.Some?
    ensures Exec(c, s, events) == s
    decreases |events|
  {
    if events != [] {
      EndedStays(c, s, events[1..]);
    }
  }

  /* The operation */

  class Operation {
    const cfg: Config
    var stage: Stage
    var msgs: Msgs
    var retryCount: nat
    var fullRetryRemCount: nat
    var suspended: bool
    var armed: bool
    var status: Option<Status>
    ghost var log: seq<Item>

    ghost function State(): Op
      reads this
    {
      Op(stage, msgs, retryCount, fullRetryRemCount, suspended, armed, status, log)
    }

    /** `send`, after its checks: the ids are allocated by the caller. */
    constructor (cfg: Config, stage: Stage, regId: nat, pubId: nat, topicId: nat, suspended: bool, ok: bool)
      ensures this.cfg == cfg
      ensures State() == SendInternal(cfg, Initial(cfg, stage, regId, pubId, topicId, suspended), ok)
      ensures stage != StageAcked ==> Inv(cfg, State())
    {
      this.cfg, this.stage := cfg, stage;
      msgs := Msgs(regId, pubId, topicId, false);
      retryCount, fullRetryRemCount := cfg.retries, cfg.retries;
      this.suspended, armed, status, log := suspended, false, None, [];
      new;
      SendAndCheck(ok);
      if stage != StageAcked {
        InitialInv(cfg, stage, regId, pubId, topicId, suspended, ok);
      }
    }

    method CompleteOp(s: Status)
      modifies `status, `armed
      ensures State() == Finish(old(State()), s)
    {
      status, armed := Some(s), false;
    }

    method SendRegister(ok: bool) returns (sent: bool)
      modifies `log, `armed
      ensures sent == ok && State() == if ok then Say(old(State()), Register(msgs.regId)) else old(State())
    {
      if ok {
        log := log + [Register(msgs.regId)];
        armed := true;
      }
      return ok;
    }

    method SendPublish(ok: bool) returns (sent: bool)
      modifies `log, `armed, `msgs, `status
      ensures sent == ok
      ensures var s := MarkDup(cfg, old(State()));
              State() ==
              if !ok then s
              else
                var said := Say(s, Publish(s.msgs.pubId, s.msgs.topicId, s.msgs.dup));
                if cfg.qos == AtMostOnce then Finish(said, Complete) else said
    {
      if retryCount < cfg.retries {
        msgs := msgs.(dup := true);
      }
      if !ok {
        return false;
      }
      log := log + [Publish(msgs.pubId, msgs.topicId, msgs.dup)];
      if cfg.qos == AtMostOnce {
        CompleteOp(Complete);
        return true;
      }
      armed := true;
      return true;
    }

    method SendPubrel(ok: bool) returns (sent: bool)
      modifies `log, `armed
      ensures sent == ok && State() == if ok then Say(old(State()), Pubrel(msgs.pubId)) else old(State())
    {
      if ok {
        log := log + [Pubrel(msgs.pubId)];
        armed := true;
      }
      return ok;
    }

    method SendAndCheck(ok: bool)
      modifies `log, `armed, `msgs, `status
      ensures State() == SendInternal(cfg, old(State()), ok)
    {
      if suspended {
        return;
      }
      var sent;
      match stage {
        case StageRegister => sent := SendRegister(ok);
        case StagePublish => sent := SendPublish(ok);
        case StageAcked => sent := SendPubrel(ok);
      }
      if !sent {
        CompleteOp(SendFailed);
      }
    }

    method ResumeOp(ok: bool)
      modifies this
      ensures State() == OnResume(cfg, old(State()), ok)
      ensures old(Inv(cfg, State())) && old(status).None? ==> Inv(cfg, State())
    {
      hide Inv;
      if Inv(cfg, State()) && status.None? {
        ResumeKeeps(cfg, State(), ok);
      }
      if !suspended {
        return;
      }
      suspended := false;
      SendAndCheck(ok);
    }

    method TimeoutInternal(ok: bool)
      requires armed
      modifies this
      ensures State() == OnTimeout(cfg, old(State()), ok)
      ensures old(Inv(cfg, State())) && old(status).None? ==> Inv(cfg, State())
    {
      hide Inv;
      if Inv(cfg, State()) && status.None? {
        TimeoutKeeps(cfg, State(), ok);
      }
      armed := false;
      if retryCount == 0 {
        CompleteOp(TimedOut);
        return;
      }
      retryCount := retryCount - 1;
      SendAndCheck(ok);
    }

    method HandleRegack(msgId: nat, accepted: bool, topicId: nat, ok: bool)
      modifies this
      ensures State() == OnRegack(cfg, old(State()), msgId, accepted, topicId, ok)
      ensures old(Inv(cfg, State())) && old(status).None? ==> Inv(cfg, State())
    {
      hide Inv;
      if Inv(cfg, State()) && status.None? {
        RegackKeeps(cfg, State(), msgId, accepted, topicId, ok);
      }
      log := log + [GotRegack(msgId, accepted)];
      if suspended {
        return;
      }
      if stage != StageRegister || msgId != msgs.regId {
        return;
      }
      if !accepted {
        CompleteOp(Complete);
        return;
      }
      if !IsValidTopicId(topicId) {
        return;
      }
      stage := StagePublish;
      msgs := msgs.(topicId := topicId);
      retryCount := cfg.retries;
      SendAndCheck(ok);
    }

    method HandlePuback(msgId: nat, topicId: nat, rc: ReturnCode, ok: bool, regId: nat, pubId: nat)
      modifies this
      ensures State() == OnPuback(cfg, old(State()), msgId, topicId, rc, ok, regId, pubId)
      ensures old(Inv(cfg, State())) && old(status).None? ==> Inv(cfg, State())
    {
      hide Inv;
      if Inv(cfg, State()) && status.None? {
        PubackKeeps(cfg, State(), msgId, topicId, rc, ok, regId, pubId);
      }
      log := log + [GotPuback(msgId, rc)];
      if suspended || stage == StageRegister || msgId != msgs.pubId || topicId != msgs.topicId {
        return;
      }
      if rc == Accepted && cfg.qos != AtLeastOnce {
        return;
      }
      if rc != InvalidTopicId || cfg.topicKind != Normal || fullRetryRemCount == 0 {
        CompleteOp(Complete);
        return;
      }
      fullRetryRemCount := fullRetryRemCount - 1;
      stage := StageRegister;
      msgs := msgs.(dup := false);
      AllocPacketIds(regId, pubId);
      retryCount := cfg.retries;
      log := log + [Restart];
      SendAndCheck(ok);
    }

    method AllocPacketIds(regId: nat, pubId: nat)
      requires stage == StageRegister
      modifies `msgs
      ensures msgs == old(msgs).(regId := regId, pubId := if cfg.qos == AtMostOnce then old(msgs).pubId else pubId)
    {
      msgs := msgs.(regId := regId);
      if cfg.qos != AtMostOnce {
        msgs := msgs.(pubId := pubId);
      }
    }

    method HandlePubrec(msgId: nat, ok: bool)
      modifies this
      ensures State() == OnPubrec(cfg, old(State()), msgId, ok)
      ensures old(Inv(cfg, State())) && old(status).None? ==> Inv(cfg, State())
    {
      hide Inv;
      if Inv(cfg, State()) && status.None? {
        PubrecKeeps(cfg, State(), msgId, ok);
      }
      log := log + [GotPubrec(msgId)];
      if suspended || stage == StageRegister || msgId != msgs.pubId {
        return;
      }
      if cfg.qos != ExactlyOnce {
        return;
      }
      stage := StageAcked;
      retryCount := cfg.retries;
      SendAndCheck(ok);
    }

    method HandlePubcomp(msgId: nat)
      modifies this
      ensures State() == OnPubcomp(old(State()), msgId)
      ensures old(Inv(cfg, State())) && old(status).None? ==> Inv(cfg, State())
    {
      hide Inv;
      if Inv(cfg, State()) && status.None? {
        PubcompKeeps(cfg, State(), msgId);
      }
      log := log + [GotPubcomp(msgId)];
      if suspended || stage != StageAcked || msgId != msgs.pubId {
        return;
      }
      CompleteOp(Complete);
    }
  }
}
