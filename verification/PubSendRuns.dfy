/** Whole runs of the gateway's `PubSend` op: conservation of publications, the cost of retransmission, and
    the replies to a sleeping client. */
module PubSendRuns {
  import opened Protocol
  import opened PubSend
  import opened PubRecv

  /* Counting messages */

  ghost function Count(ms: seq<ToClient>, p: ToClient -> bool): nat {
    if ms == [] then 0 else Count(ms[..|ms| - 1], p) + if p(ms[|ms| - 1]) then 1 else 0
  }

  lemma CountPush(ms: seq<ToClient>, m: ToClient, p: ToClient -> bool)
    ensures Count(ms + [m], p) == Count(ms, p) + if p(m) then 1 else 0
  {
    assert (ms + [m])[..|ms|] == ms;
  }

  ghost function SendOf(n: nat): ToClient -> bool {
    (m: ToClient) => (m.Register? || m.Publish?) && m.pub.serial == n
  }

  ghost function Rel(): ToClient -> bool { (m: ToClient) => m.Pubrel? }

  ghost function Goodbye(): ToClient -> bool { (m: ToClient) => m.Disconnect? }

  ghost function PingReply(): ToClient -> bool { (m: ToClient) => m.Pingresp? }

  /* What the op owns */

  function CurrSeq(s: Sender): seq<Pub> {
    if s.curr.Some? then [s.curr.value] else []
  }

  /** Publications ever taken from the queue, in that order. */
  function Started(s: Sender): seq<Pub> {
    s.retired + CurrSeq(s)
  }

  /** Retired, then current, then queued. */
  function InLine(s: Sender): seq<Pub> {
    Started(s) + s.ses.queue
  }

  ghost predicate Ordered(ps: seq<Pub>) {
    forall i, j :: 0 <= i < j < |ps| ==> ps[i].serial < ps[j].serial
  }

  ghost predicate Has(ps: seq<Pub>, n: nat) {
    exists i :: 0 <= i < |ps| && ps[i].serial == n
  }

  /** Transmissions of publication `n` so far plus those it may still get before the next acknowledgement. */
  ghost function SendBudget(cfg: Config, s: Sender, n: nat): int {
    Count(s.sent, SendOf(n)) +
    if Has(s.ses.queue, n) then cfg.retryCount
    else if s.curr.Some? && s.curr.value.serial == n && !s.fl.acked then cfg.retryCount - s.fl.attempt else 0
  }

  /** PUBRELs so far plus those the current publication may still get before the next acknowledgement. */
  ghost function RelBudget(cfg: Config, s: Sender): int {
    Count(s.sent, Rel()) + if s.curr.Some? && s.fl.acked then cfg.retryCount - s.fl.attempt else 0
  }

  ghost function Bit(b: bool): nat { if b then 1 else 0 }

  ghost predicate Good(cfg: Config, s: Sender) {
    && Ordered(InLine(s))
    && (s.curr.Some? ==> s.fl.attempt <= cfg.retryCount)
    && Count(s.sent, Goodbye()) == Bit(s.disconnectSent)
  }

  /** What every move of the op keeps. */
  ghost predicate Keeps(cfg: Config, s: Sender, t: Sender) {
    && Good(cfg, t)
    && InLine(t) == InLine(s)
    && Started(s) <= Started(t)
    && s.sent <= t.sent
    && Count(t.sent, PingReply()) + Bit(t.ping) == Count(s.sent, PingReply()) + Bit(s.ping)
  }

  /** What every move without a client acknowledgement keeps. */
  ghost predicate Frugal(cfg: Config, s: Sender, t: Sender, n: nat) {
    && Keeps(cfg, s, t)
    && SendBudget(cfg, t, n) <= SendBudget(cfg, s, n)
    && RelBudget(cfg, t) <= RelBudget(cfg, s)
  }

  lemma FrugalTrans(cfg: Config, s: Sender, t: Sender, u: Sender, n: nat)
    requires Frugal(cfg, s, t, n) && Frugal(cfg, t, u, n)
    ensures Frugal(cfg, s, u, n)
  {
  }

  lemma RetireFrugal(cfg: Config, s: Sender, n: nat)
    requires Good(cfg, s) && s.curr.Some?
    ensures Frugal(cfg, s, Retire(s), n)
  {
    assert InLine(Retire(s)) == InLine(s);
  }

  /** The effect of one attempt: nothing but a retirement, or one message about the current publication. */
  lemma AttemptShape(cfg: Config, s: Sender)
    requires s.curr.Some?
    ensures var t := Attempt(cfg, s);
            && Tried(s, t)
            && (t.sent != s.sent ==>
                  && s.fl.attempt < cfg.retryCount && t.fl.attempt == s.fl.attempt + 1
                  && SendOf(s.curr.value.serial)(t.sent[|s.sent|]))
  {
    hide SendOnce;
    AttemptTries(cfg, s);
    var tried := s.(fl := s.fl.(attempt := s.fl.attempt + 1));
    SendOncePublishes(cfg, tried);
    SendOnceAttempt(cfg, tried);
  }

  lemma SendOnceAttempt(cfg: Config, s: Sender)
    requires s.curr.Some?
    ensures SendOnce(cfg, s).fl.attempt == s.fl.attempt
  {
    hide PublishMsg;
  }

  lemma CountPushes(ms: seq<ToClient>, m: ToClient, n: nat)
    ensures Count(ms + [m], SendOf(n)) == Count(ms, SendOf(n)) + Bit(SendOf(n)(m))
    ensures Count(ms + [m], Rel()) == Count(ms, Rel()) + Bit(m.Pubrel?)
    ensures Count(ms + [m], Goodbye()) == Count(ms, Goodbye()) + Bit(m.Disconnect?)
    ensures Count(ms + [m], PingReply()) == Count(ms, PingReply()) + Bit(m.Pingresp?)
  {
    CountPush(ms, m, SendOf(n));
    CountPush(ms, m, Rel());
    CountPush(ms, m, Goodbye());
    CountPush(ms, m, PingReply());
  }

  lemma CurrNotQueued(s: Sender)
    requires Ordered(InLine(s)) && s.curr.Some?
    ensures !Has(s.ses.queue, s.curr.value.serial)
  {
    var i := |Started(s)| - 1;
    assert InLine(s)[i] == s.curr.value;
    assert forall j :: 0 <= j < |s.ses.queue| ==> s.ses.queue[j] == InLine(s)[i + 1 + j];
  }

  lemma AttemptFrugal(cfg: Config, s: Sender, n: nat)
    requires Good(cfg, s) && s.curr.Some?
    ensures Keeps(cfg, s, Attempt(cfg, s))
    ensures !s.fl.acked ==> Frugal(cfg, s, Attempt(cfg, s), n)
  {
    hide Attempt, Count, Ordered;
    AttemptShape(cfg, s);
    CurrNotQueued(s);
    var t := Attempt(cfg, s);
    assert InLine(t) == InLine(s);
    if t.sent != s.sent {
      CountPushes(s.sent, t.sent[|s.sent|], n);
    }
  }

  lemma PopFrugal(cfg: Config, s: Sender, n: nat)
    requires Good(cfg, s) && s.curr.None? && s.ses.queue != []
    ensures Frugal(cfg, s, Load(cfg, Pop(s)), n) && Load(cfg, Pop(s)).curr.Some? && !Load(cfg, Pop(s)).fl.acked
  {
    hide Count;
    var t := Load(cfg, Pop(s));
    assert InLine(t) == InLine(s);
    CurrNotQueued(t);
    assert s.ses.queue == [t.curr.value] + t.ses.queue;
    if Has(t.ses.queue, n) {
      var i :| 0 <= i < |t.ses.queue| && t.ses.queue[i].serial == n;
      assert s.ses.queue[i + 1].serial == n;
    }
  }

  lemma {:induction false} DrainFrugal(cfg: Config, s: Sender, n: nat)
    requires Good(cfg, s)
    ensures Frugal(cfg, s, Drain(cfg, s), n)
    decreases |s.ses.queue|
  {
    hide Attempt, Load, Frugal, Good;
    if s.ses.queue != [] && s.curr.None? {
      PopFrugal(cfg, s, n);
      KeepsGood(cfg, s, Load(cfg, Pop(s)), n);
      AttemptFrugal(cfg, Load(cfg, Pop(s)), n);
      FrugalTrans(cfg, s, Load(cfg, Pop(s)), Start(cfg, s), n);
      KeepsGood(cfg, s, Start(cfg, s), n);
      StartFrame(cfg, s);
      DrainFrugal(cfg, Start(cfg, s), n);
      FrugalTrans(cfg, s, Start(cfg, s), Drain(cfg, s), n);
    } else {
      Stays(cfg, s, n);
    }
  }

  lemma KeepsGood(cfg: Config, s: Sender, t: Sender, n: nat)
    requires Frugal(cfg, s, t, n)
    ensures Good(cfg, t)
  {
  }

  lemma Stays(cfg: Config, s: Sender, n: nat)
    requires Good(cfg, s)
    ensures Frugal(cfg, s, s, n)
  {
  }

  lemma TailFrugal(cfg: Config, s: Sender, n: nat)
    requires Good(cfg, s)
    ensures Frugal(cfg, s, Tail(s), n)
  {
    hide Count, Ordered;
    CountPushes(s.sent, Disconnect, n);
    CountPushes(s.sent, Pingresp, n);
    assert InLine(Tail(s)) == InLine(s);
  }

  lemma CheckFrugal(cfg: Config, s: Sender, n: nat)
    requires Good(cfg, s)
    ensures Frugal(cfg, s, Check(cfg, s), n)
  {
    hide Drain, Tail, Frugal, Count, MayStart;
    var u := s.(armed := false);
    Disarm(cfg, s, n);
    if MayStart(s) {
      DrainFrugal(cfg, u, n);
      KeepsGood(cfg, u, Drain(cfg, u), n);
      TailFrugal(cfg, Drain(cfg, u), n);
      FrugalTrans(cfg, s, u, Drain(cfg, u), n);
      FrugalTrans(cfg, s, Drain(cfg, u), Tail(Drain(cfg, u)), n);
    } else {
      Stays(cfg, s, n);
    }
  }

  lemma Disarm(cfg: Config, s: Sender, n: nat)
    requires Good(cfg, s)
    ensures Frugal(cfg, s, s.(armed := false), n) && Good(cfg, s.(armed := false))
  {
    hide Count, Ordered;
    assert InLine(s.(armed := false)) == InLine(s);
  }

  lemma RetireThenCheck(cfg: Config, s: Sender, n: nat)
    requires Good(cfg, s) && s.curr.Some?
    ensures Frugal(cfg, s, Check(cfg, Retire(s)), n)
  {
    hide Frugal, Check, Retire, Good;
    RetireFrugal(cfg, s, n);
    KeepsGood(cfg, s, Retire(s), n);
    CheckFrugal(cfg, Retire(s), n);
    FrugalTrans(cfg, s, Retire(s), Check(cfg, Retire(s)), n);
  }

  lemma DoSendFrugal(cfg: Config, s: Sender, n: nat)
    requires Good(cfg, s) && s.curr.Some?
    ensures Keeps(cfg, s, DoSend(cfg, s))
    ensures !s.fl.acked ==> Frugal(cfg, s, DoSend(cfg, s), n)
  {
    hide Check, Attempt, Good, Count, InLine, Started;
    AttemptFrugal(cfg, s, n);
    var t := Attempt(cfg, s);
    if t.curr.None? {
      CheckFrugal(cfg, t, n);
    }
  }

  /* Runs */

  /** What can happen to the op between two outputs of the event loop. `Enqueue` is the broker side putting
      a publication at the back of the shared queue, dropping the oldest ones beyond `limit`. */
  datatype Event =
    | Enqueue(topic: string, data: seq<bv8>, qos: Qos, retain: bool, dup: bool, limit: Limit)
    | Tick
    | Regack(topicId: nat, msgId: nat, rc: ReturnCode)
    | Puback(topicId: nat, msgId: nat, rc: ReturnCode)
    | Pubrec(msgId: nat)
    | Pubcomp(msgId: nat)
    | Pingreq(sameClient: bool)
    | OtherMessage
    | SetStatus(status: ConnStatus)
    | SetPendingDisconnect

  predicate IsAck(e: Event) {
    e.Regack? || e.Puback? || e.Pubrec? || e.Pubcomp?
  }

  /** The op with the counts kept by an observer: publications enqueued and dropped, and new PINGREQs. */
  datatype Run = Run(snd: Sender, enqueued: nat, dropped: seq<Pub>, pings: nat)

  function Fresh(): Run {
    Run(Init(), 0, [], 0)
  }

  function Enqueued(r: Run, e: Event): Run
    requires e.Enqueue?
  {
    var q := r.snd.ses.queue;
    var k := Overflow(q, e.limit);
    var pub := Pub(r.enqueued, e.topic, e.data, e.qos, e.retain, e.dup);
    Run(r.snd.(ses := r.snd.ses.(queue := Pushed(q, pub, e.limit))), r.enqueued + 1, r.dropped + q[..k], r.pings)
  }

  /** The op's own answer to an event. */
  function Answer(cfg: Config, s: Sender, e: Event): Sender {
    match e
    case Enqueue(_, _, _, _, _, _) => s
    case Tick => if s.armed then OnTick(cfg, s) else s
    case Regack(topicId, msgId, rc) => OnRegack(cfg, s, topicId, msgId, rc)
    case Puback(topicId, msgId, rc) => OnPuback(cfg, s, topicId, msgId, rc)
    case Pubrec(msgId) => OnPubrec(s, msgId)
    case Pubcomp(msgId) => OnPubcomp(cfg, s, msgId)
    case Pingreq(same) => OnPingreq(cfg, s, same)
    case OtherMessage => Check(cfg, s)
    case SetStatus(status) => s.(ses := s.ses.(status := status))
    case SetPendingDisconnect => s.(ses := s.ses.(pendingDisconnect := true))
  }

  /** A PINGREQ of the sleeping client that finds none waiting. */
  predicate NewPing(s: Sender, e: Event) {
    e.Pingreq? && e.sameClient && s.ses.status == Asleep && !s.ping
  }

  function Step(cfg: Config, r: Run, e: Event): Run {
    if e.Enqueue? then Enqueued(r, e)
    else r.(snd := Answer(cfg, r.snd, e), pings := r.pings + if NewPing(r.snd, e) then 1 else 0)
  }

  function Exec(cfg: Config, r: Run, es: seq<Event>): Run
    decreases |es|
  {
    if es == [] then r else Exec(cfg, Step(cfg, r, es[0]), es[1..])
  }

  /** What any event other than Enqueue keeps. */
  ghost predicate Moves(cfg: Config, s: Sender, e: Event, t: Sender, n: nat) {
    && Good(cfg, t)
    && InLine(t) == InLine(s)
    && Started(s) <= Started(t)
    && s.sent <= t.sent
    && Count(t.sent, PingReply()) + Bit(t.ping) ==
       Count(s.sent, PingReply()) + Bit(s.ping) + Bit(NewPing(s, e))
    && (!IsAck(e) ==> SendBudget(cfg, t, n) <= SendBudget(cfg, s, n) && RelBudget(cfg, t) <= RelBudget(cfg, s))
  }

  lemma FrugalMoves(cfg: Config, s: Sender, e: Event, t: Sender, n: nat)
    requires Frugal(cfg, s, t, n) && !e.Pingreq?
    ensures Moves(cfg, s, e, t, n)
  {
  }

  /** An acknowledgement may change `fl`, the timer and the id counter first: budgets then start anew. */
  lemma AckMoves(cfg: Config, s: Sender, e: Event, u: Sender, t: Sender, n: nat)
    requires Good(cfg, s) && IsAck(e) && Keeps(cfg, u, t)
    requires u == s.(fl := u.fl, armed := u.armed, nextMsgId := u.nextMsgId)
    ensures Moves(cfg, s, e, t, n)
  {
    hide Count, Ordered;
    assert InLine(u) == InLine(s) && Started(u) == Started(s);
  }

  lemma Reset(cfg: Config, s: Sender, u: Sender)
    requires Good(cfg, s) && u == s.(fl := u.fl, armed := u.armed, nextMsgId := u.nextMsgId)
    requires u.curr.Some? ==> u.fl.attempt <= cfg.retryCount
    ensures Good(cfg, u)
  {
    hide Count, Ordered;
    assert InLine(u) == InLine(s);
  }

  lemma TickMoves(cfg: Config, s: Sender, n: nat)
    requires Good(cfg, s)
    ensures Moves(cfg, s, Tick, OnTick(cfg, s), n)
  {
    hide Count, Ordered, Check, DoSend, Frugal, Moves, Good;
    var u := s.(armed := false);
    Disarm(cfg, s, n);
    if u.curr.None? {
      CheckFrugal(cfg, u, n);
    } else if !u.fl.acked {
      DoSendFrugal(cfg, u, n);
    } else if cfg.retryCount <= u.fl.attempt {
      RetireThenCheck(cfg, u, n);
    } else {
      RelAgain(cfg, u, n);
    }
    FrugalTrans(cfg, s, u, OnTick(cfg, s), n);
    FrugalMoves(cfg, s, Tick, OnTick(cfg, s), n);
  }

  lemma RelAgain(cfg: Config, s: Sender, n: nat)
    requires Good(cfg, s) && s.curr.Some? && s.fl.acked && s.fl.attempt < cfg.retryCount
    ensures Frugal(cfg, s, Emit(s, Pubrel(s.fl.msgId)).(fl := s.fl.(attempt := s.fl.attempt + 1), armed := true), n)
  {
    hide Count, Ordered;
    CountPushes(s.sent, Pubrel(s.fl.msgId), n);
    var t := Emit(s, Pubrel(s.fl.msgId)).(fl := s.fl.(attempt := s.fl.attempt + 1), armed := true);
    assert InLine(t) == InLine(s);
  }

  lemma RegackMoves(cfg: Config, s: Sender, e: Event, n: nat)
    requires Good(cfg, s) && e.Regack?
    ensures Moves(cfg, s, e, Answer(cfg, s, e), n)
  {
    hide Count, Ordered, Check, DoSend, Keeps, Moves, Good;
    if s.curr.None? || e.topicId != s.fl.info.topicId || e.msgId != s.fl.msgId {
      Stays(cfg, s, n);
      FrugalMoves(cfg, s, e, s, n);
    } else if e.rc != Accepted {
      var u := s.(armed := false);
      Disarm(cfg, s, n);
      RetireThenCheck(cfg, u, n);
      AckMoves(cfg, s, e, u, Answer(cfg, s, e), n);
    } else {
      var u := Registered(cfg, s);
      Reset(cfg, s, u);
      DoSendFrugal(cfg, u, n);
      AckMoves(cfg, s, e, u, Answer(cfg, s, e), n);
    }
  }

  lemma PubackMoves(cfg: Config, s: Sender, e: Event, n: nat)
    requires Good(cfg, s) && e.Puback?
    ensures Moves(cfg, s, e, Answer(cfg, s, e), n)
  {
    hide Count, Ordered, Check, DoSend, Keeps, Moves, Good;
    var u := s.(armed := false);
    if s.curr.None? || e.topicId != s.fl.info.topicId || e.msgId != s.fl.msgId ||
       (e.rc == Accepted && s.curr.value.qos == ExactlyOnce) {
      Stays(cfg, s, n);
      FrugalMoves(cfg, s, e, s, n);
    } else if e.rc == InvalidTopicId {
      Reset(cfg, s, Load(cfg, u));
      DoSendFrugal(cfg, Load(cfg, u), n);
      AckMoves(cfg, s, e, Load(cfg, u), Answer(cfg, s, e), n);
    } else {
      Disarm(cfg, s, n);
      RetireThenCheck(cfg, u, n);
      AckMoves(cfg, s, e, u, Answer(cfg, s, e), n);
    }
  }

  lemma PubrecMoves(cfg: Config, s: Sender, e: Event, n: nat)
    requires Good(cfg, s) && e.Pubrec?
    ensures Moves(cfg, s, e, Answer(cfg, s, e), n)
    ensures RelBudget(cfg, Answer(cfg, s, e)) <= Count(s.sent, Rel()) + 1 + cfg.retryCount
  {
    hide Count, Ordered;
    CountPushes(s.sent, Pubrel(s.fl.msgId), n);
    assert InLine(Answer(cfg, s, e)) == InLine(s);
  }

  lemma PubcompMoves(cfg: Config, s: Sender, e: Event, n: nat)
    requires Good(cfg, s) && e.Pubcomp?
    ensures Moves(cfg, s, e, Answer(cfg, s, e), n)
  {
    hide Count, Ordered, Check, Keeps, Moves, Good;
    var u := s.(armed := false);
    if s.curr.None? || e.msgId != s.fl.msgId {
      Stays(cfg, s, n);
      FrugalMoves(cfg, s, e, s, n);
    } else {
      Disarm(cfg, s, n);
      RetireThenCheck(cfg, u, n);
      AckMoves(cfg, s, e, u, Answer(cfg, s, e), n);
    }
  }

  lemma PingreqMoves(cfg: Config, s: Sender, e: Event, n: nat)
    requires Good(cfg, s) && e.Pingreq?
    ensures Moves(cfg, s, e, Answer(cfg, s, e), n)
  {
    hide Count, Ordered, Check;
    var u := s.(ping := true);
    assert InLine(u) == InLine(s) && Started(u) == Started(s);
    CheckFrugal(cfg, u, n);
  }

  lemma OtherMoves(cfg: Config, s: Sender, e: Event, n: nat)
    requires Good(cfg, s) && (e.OtherMessage? || e.SetStatus? || e.SetPendingDisconnect?)
    ensures Moves(cfg, s, e, Answer(cfg, s, e), n)
  {
    hide Count, Ordered, Check;
    if e.OtherMessage? {
      CheckFrugal(cfg, s, n);
    } else {
      var t := Answer(cfg, s, e);
      assert InLine(t) == InLine(s) && Started(t) == Started(s);
    }
  }

  lemma AnswerMoves(cfg: Config, s: Sender, e: Event, n: nat)
    requires Good(cfg, s) && !e.Enqueue?
    ensures Moves(cfg, s, e, Answer(cfg, s, e), n)
  {
    hide Moves, Good, OnTick, OnRegack, OnPuback, OnPubrec, OnPubcomp, OnPingreq, Check;
    match e {
      case Tick =>
        if s.armed {
          TickMoves(cfg, s, n);
        } else {
          Stays(cfg, s, n);
          FrugalMoves(cfg, s, e, s, n);
        }
      case Regack(_, _, _) => RegackMoves(cfg, s, e, n);
      case Puback(_, _, _) => PubackMoves(cfg, s, e, n);
      case Pubrec(_) => PubrecMoves(cfg, s, e, n);
      case Pubcomp(_) => PubcompMoves(cfg, s, e, n);
      case Pingreq(_) => PingreqMoves(cfg, s, e, n);
      case OtherMessage => OtherMoves(cfg, s, e, n);
      case SetStatus(_) => OtherMoves(cfg, s, e, n);
      case SetPendingDisconnect => OtherMoves(cfg, s, e, n);
    }
  }

  /** `all` holds `n` publications whose serials are distinct and below `n`: each of 0 to n-1 exactly once. */
  ghost predicate Accounted(all: seq<Pub>, n: nat) {
    && |all| == n
    && (forall i :: 0 <= i < |all| ==> all[i].serial < n)
    && (forall i, j :: 0 <= i < j < |all| ==> all[i].serial != all[j].serial)
  }

  ghost function Serials(all: seq<Pub>): set<nat> {
    if all == [] then {} else Serials(all[..|all| - 1]) + {all[|all| - 1].serial}
  }

  lemma {:induction false} SerialsMember(all: seq<Pub>, x: nat)
    ensures x in Serials(all) <==> Has(all, x)
  {
    if all != [] {
      var front := all[..|all| - 1];
      SerialsMember(front, x);
      if Has(front, x) {
        var i :| 0 <= i < |front| && front[i].serial == x;
        assert all[i].serial == x;
      }
    }
  }

  lemma {:induction false} SerialsDistinct(all: seq<Pub>)
    requires forall i, j :: 0 <= i < j < |all| ==> all[i].serial != all[j].serial
    ensures |Serials(all)| == |all|
  {
    if all != [] {
      SerialsDistinct(all[..|all| - 1]);
      SerialsMember(all[..|all| - 1], all[|all| - 1].serial);
    }
  }

  ghost function Below(n: nat): (s: set<nat>)
    ensures |s| == n && forall x :: x in s <==> 0 <= x < n
  {
    if n == 0 then {} else Below(n - 1) + {n - 1}
  }

  /** By counting: each of the enqueued publications is found, at one position only. */
  lemma EachExactlyOnce(all: seq<Pub>, n: nat, k: nat)
    requires Accounted(all, n) && k < n
    ensures exists i :: 0 <= i < |all| && all[i].serial == k
                        && forall j :: 0 <= j < |all| && all[j].serial == k ==> j == i
  {
    SerialsDistinct(all);
    var missing := Below(n) - Serials(all);
    forall x | x in Serials(all) ensures x in Below(n) {
      SerialsMember(all, x);
    }
    assert |missing| == |Below(n)| - |Serials(all)|;
    assert k in Below(n) && k !in missing;
    SerialsMember(all, k);
    var i :| 0 <= i < |all| && all[i].serial == k;
  }

  /** Every publication ever enqueued is dropped, retired, current or queued, in exactly one of these places and
      once only; those taken from the queue left it in enqueue order. */
  ghost predicate Ledger(cfg: Config, r: Run) {
    && Good(cfg, r.snd)
    && Accounted(r.dropped + InLine(r.snd), r.enqueued)
    && Count(r.snd.sent, PingReply()) + Bit(r.snd.ping) == r.pings
  }

  /** Moving the oldest `k` queued publications to the dropped ones and adding a new one keeps the account. */
  lemma EnqueueAccounted(dropped: seq<Pub>, started: seq<Pub>, q: seq<Pub>, k: nat, pub: Pub, n: nat)
    requires k <= |q| && Accounted(dropped + (started + q), n) && pub.serial == n
    ensures Accounted((dropped + q[..k]) + (started + (q[k..] + [pub])), n + 1)
  {
    var all, all' := dropped + (started + q), (dropped + q[..k]) + (started + (q[k..] + [pub]));
    var d, st := |dropped|, |started|;
    assert |all'| == n + 1 && all'[n] == pub;
    forall i | 0 <= i < n ensures all'[i] == all[Source(i, d, k, st)] {
      MovedFrom(dropped, started, q, k, pub, i);
    }
    forall i, j | 0 <= i < j < |all'| ensures all'[i].serial != all'[j].serial {
      if j < n {
        var a, b := Source(i, d, k, st), Source(j, d, k, st);
        assert if a < b then all[a].serial != all[b].serial else all[b].serial != all[a].serial;
      }
    }
  }

  /** Where the publication at `i` stood before `k` queued ones moved in front of the started ones. */
  function Source(i: nat, d: nat, k: nat, st: nat): nat {
    if i < d then i else if i < d + k then i + st else if i < d + k + st then i - k else i
  }

  lemma MovedFrom(dropped: seq<Pub>, started: seq<Pub>, q: seq<Pub>, k: nat, pub: Pub, i: nat)
    requires k <= |q| && i < |dropped| + |started| + |q|
    ensures ((dropped + q[..k]) + (started + (q[k..] + [pub])))[i] ==
            (dropped + (started + q))[Source(i, |dropped|, k, |started|)]
  {
  }

  lemma EnqueueOrdered(dropped: seq<Pub>, started: seq<Pub>, q: seq<Pub>, k: nat, pub: Pub, n: nat)
    requires k <= |q| && Accounted(dropped + (started + q), n) && pub.serial == n && Ordered(started + q)
    ensures Ordered(started + (q[k..] + [pub]))
  {
    var line, line' := started + q, started + (q[k..] + [pub]);
    assert forall i :: 0 <= i < |line| ==> line[i] == (dropped + line)[|dropped| + i];
    assert forall i :: 0 <= i < |line'| - 1 ==> line'[i] == line[if i < |started| then i else i + k];
  }

  lemma EnqueueLedger(cfg: Config, r: Run, e: Event)
    requires Ledger(cfg, r) && e.Enqueue?
    ensures Ledger(cfg, Step(cfg, r, e)) && Started(Step(cfg, r, e).snd) == Started(r.snd)
  {
    hide Count, Ordered, Accounted;
    var q := r.snd.ses.queue;
    var k := Overflow(q, e.limit);
    var r' := Step(cfg, r, e);
    var pub := Pub(r.enqueued, e.topic, e.data, e.qos, e.retain, e.dup);
    EnqueueAccounted(r.dropped, Started(r.snd), q, k, pub, r.enqueued);
    EnqueueOrdered(r.dropped, Started(r.snd), q, k, pub, r.enqueued);
    assert Started(r'.snd) == Started(r.snd);
  }

  lemma StepLedger(cfg: Config, r: Run, e: Event)
    requires Ledger(cfg, r)
    ensures Ledger(cfg, Step(cfg, r, e)) && Started(r.snd) <= Started(Step(cfg, r, e).snd)
  {
    hide Answer, Count, Ordered, InLine, Started;
    if e.Enqueue? {
      EnqueueLedger(cfg, r, e);
    } else {
      AnswerMoves(cfg, r.snd, e, 0);
    }
  }

  /** Conservation, over every run. */
  lemma {:induction false} Conservation(cfg: Config, r: Run, es: seq<Event>)
    requires Ledger(cfg, r)
    ensures Ledger(cfg, Exec(cfg, r, es)) && Started(r.snd) <= Started(Exec(cfg, r, es).snd)
    decreases |es|
  {
    hide Ledger, Step;
    if es != [] {
      StepLedger(cfg, r, es[0]);
      Conservation(cfg, Step(cfg, r, es[0]), es[1..]);
    }
  }

  /* The cost of retransmission */

  ghost predicate AckFree(es: seq<Event>) {
    forall i :: 0 <= i < |es| ==> !IsAck(es[i])
  }

  /** As SendBudget, and a publication that is yet to be enqueued has its whole budget left. */
  ghost function RunBudget(cfg: Config, r: Run, n: nat): int {
    SendBudget(cfg, r.snd, n) + if r.enqueued <= n then cfg.retryCount else 0
  }

  lemma QueuedIsEnqueued(cfg: Config, r: Run, n: nat)
    requires Ledger(cfg, r) && (Has(r.snd.ses.queue, n) || (r.snd.curr.Some? && r.snd.curr.value.serial == n))
    ensures n < r.enqueued
  {
    hide Count, Good;
    var all := r.dropped + InLine(r.snd);
    var d, st := |r.dropped|, |Started(r.snd)|;
    if Has(r.snd.ses.queue, n) {
      var i :| 0 <= i < |r.snd.ses.queue| && r.snd.ses.queue[i].serial == n;
      assert all[d + st + i].serial == n;
    } else {
      assert all[d + st - 1].serial == n;
    }
  }

  lemma BudgetBounds(cfg: Config, r: Run, n: nat)
    requires Ledger(cfg, r)
    ensures Count(r.snd.sent, SendOf(n)) <= RunBudget(cfg, r, n) <= Count(r.snd.sent, SendOf(n)) + cfg.retryCount
    ensures Count(r.snd.sent, Rel()) <= RelBudget(cfg, r.snd)
  {
    hide Count, Accounted, Ordered;
    if Has(r.snd.ses.queue, n) || (r.snd.curr.Some? && r.snd.curr.value.serial == n) {
      QueuedIsEnqueued(cfg, r, n);
    }
  }

  lemma HasAfterPush(q: seq<Pub>, k: nat, pub: Pub, n: nat)
    requires k <= |q|
    ensures Has(q[k..] + [pub], n) ==> Has(q, n) || pub.serial == n
  {
    var q' := q[k..] + [pub];
    if Has(q', n) {
      var i :| 0 <= i < |q'| && q'[i].serial == n;
      assert i < |q'| - 1 ==> q'[i] == q[k + i];
    }
  }

  lemma EnqueueBudget(cfg: Config, r: Run, e: Event, n: nat)
    requires Ledger(cfg, r) && e.Enqueue?
    ensures RunBudget(cfg, Step(cfg, r, e), n) <= RunBudget(cfg, r, n)
    ensures RelBudget(cfg, Step(cfg, r, e).snd) == RelBudget(cfg, r.snd)
  {
    hide Count, Accounted, Ordered, Has;
    var q := r.snd.ses.queue;
    var pub := Pub(r.enqueued, e.topic, e.data, e.qos, e.retain, e.dup);
    HasAfterPush(q, Overflow(q, e.limit), pub, n);
    if Has(q, n) && r.snd.curr.Some? {
      CurrNotQueued(r.snd);
    }
    if Has(q, n) || (r.snd.curr.Some? && r.snd.curr.value.serial == n) {
      QueuedIsEnqueued(cfg, r, n);
    }
  }

  lemma {:induction false} BudgetNeverGrows(cfg: Config, r: Run, es: seq<Event>, n: nat)
    requires Ledger(cfg, r) && AckFree(es)
    ensures RunBudget(cfg, Exec(cfg, r, es), n) <= RunBudget(cfg, r, n)
    ensures RelBudget(cfg, Exec(cfg, r, es).snd) <= RelBudget(cfg, r.snd)
    decreases |es|
  {
    hide Ledger, Answer, SendBudget, RelBudget, Good;
    if es != [] {
      var r' := Step(cfg, r, es[0]);
      StepLedger(cfg, r, es[0]);
      if es[0].Enqueue? {
        EnqueueBudget(cfg, r, es[0], n);
      } else {
        LedgerGood(cfg, r);
        AnswerMoves(cfg, r.snd, es[0], n);
      }
      BudgetNeverGrows(cfg, r', es[1..], n);
    }
  }

  lemma LedgerGood(cfg: Config, r: Run)
    requires Ledger(cfg, r)
    ensures Good(cfg, r.snd)
  {
  }

  /** Between two acknowledgements any one publication is transmitted, as REGISTER or PUBLISH, at most
      `retryCount` times. */
  lemma SendsBetweenAcks(cfg: Config, r: Run, es: seq<Event>, n: nat)
    requires Ledger(cfg, r) && AckFree(es)
    ensures Count(Exec(cfg, r, es).snd.sent, SendOf(n)) <= Count(r.snd.sent, SendOf(n)) + cfg.retryCount
  {
    hide Ledger, Exec, Count;
    BudgetNeverGrows(cfg, r, es, n);
    Conservation(cfg, r, es);
    BudgetBounds(cfg, r, n);
    BudgetBounds(cfg, Exec(cfg, r, es), n);
  }

  /** A PUBREC and all that follows it up to the next acknowledgement cost at most `retryCount + 1` PUBRELs. */
  lemma RelsAfterPubrec(cfg: Config, r: Run, ack: Event, es: seq<Event>)
    requires Ledger(cfg, r) && ack.Pubrec? && AckFree(es)
    ensures Count(Exec(cfg, Step(cfg, r, ack), es).snd.sent, Rel()) <= Count(r.snd.sent, Rel()) + cfg.retryCount + 1
  {
    hide Ledger, Exec, Count, RelBudget, OnPubrec;
    LedgerGood(cfg, r);
    StepLedger(cfg, r, ack);
    PubrecMoves(cfg, r.snd, ack, 0);
    BudgetNeverGrows(cfg, Step(cfg, r, ack), es, 0);
    Conservation(cfg, Step(cfg, r, ack), es);
    BudgetBounds(cfg, Exec(cfg, Step(cfg, r, ack), es), 0);
  }

  /* Replies to a sleeping or leaving client */

  lemma FreshLedger(cfg: Config)
    ensures Ledger(cfg, Fresh())
  {
  }

  /** After every run each publication ever enqueued is at exactly one position among the dropped ones, the
      retired ones, the current one and the queue, and those not dropped stand in enqueue order. */
  lemma ExactlyOnePlace(cfg: Config, es: seq<Event>, k: nat)
    ensures var r := Exec(cfg, Fresh(), es);
            var all := r.dropped + InLine(r.snd);
            && Ordered(InLine(r.snd))
            && (k < r.enqueued ==>
                  exists i :: 0 <= i < |all| && all[i].serial == k
                              && forall j :: 0 <= j < |all| && all[j].serial == k ==> j == i)
  {
    hide Exec, Count, InLine;
    FreshLedger(cfg);
    Conservation(cfg, Fresh(), es);
    var r := Exec(cfg, Fresh(), es);
    if k < r.enqueued {
      EachExactlyOnce(r.dropped + InLine(r.snd), r.enqueued, k);
    }
  }

  /** Over a whole run: at most one DISCONNECT, and each PINGREQ of the sleeping client that found none waiting has been
      answered with one PINGRESP or is the one that waits. */
  lemma RepliesOverRun(cfg: Config, es: seq<Event>)
    ensures var r := Exec(cfg, Fresh(), es);
            && Count(r.snd.sent, Goodbye()) == Bit(r.snd.disconnectSent)
            && Count(r.snd.sent, PingReply()) + Bit(r.snd.ping) == r.pings
  {
    hide Exec, Count, Accounted, Ordered;
    FreshLedger(cfg);
    Conservation(cfg, Fresh(), es);
  }

  predicate IsReply(m: ToClient) {
    m.Disconnect? || m.Pingresp?
  }

  /** `t` has sent more than `s`, and no reply among it. */
  ghost predicate NoReply(s: Sender, t: Sender) {
    s.sent <= t.sent && forall j :: |s.sent| <= j < |t.sent| ==> !IsReply(t.sent[j])
  }

  /** `t` has sent more than `s`, replies only with an empty broker queue. */
  ghost predicate RepliesWhenEmpty(s: Sender, t: Sender) {
    s.sent <= t.sent && forall j :: |s.sent| <= j < |t.sent| && IsReply(t.sent[j]) ==> t.ses.queue == []
  }

  lemma {:induction false} DrainNoReply(cfg: Config, s: Sender)
    ensures NoReply(s, Drain(cfg, s))
    decreases |s.ses.queue|
  {
    hide Attempt;
    if s.ses.queue != [] && s.curr.None? {
      AttemptShape(cfg, Load(cfg, Pop(s)));
      StartFrame(cfg, s);
      DrainNoReply(cfg, Start(cfg, s));
    }
  }

  lemma CheckReplies(cfg: Config, s: Sender)
    ensures RepliesWhenEmpty(s, Check(cfg, s))
  {
    hide Drain;
    DrainNoReply(cfg, s.(armed := false));
  }

  lemma DoSendReplies(cfg: Config, s: Sender)
    requires s.curr.Some?
    ensures RepliesWhenEmpty(s, DoSend(cfg, s))
  {
    hide Attempt, Check;
    AttemptShape(cfg, s);
    CheckReplies(cfg, Attempt(cfg, s));
  }

  /** Whatever happens, a DISCONNECT or a PINGRESP leaves the op only when the broker queue is empty. */
  lemma RepliesNeedEmptyQueue(cfg: Config, s: Sender, e: Event)
    ensures RepliesWhenEmpty(s, Answer(cfg, s, e))
  {
    hide DoSend, Check;
    var u := s.(armed := false);
    match e {
      case Tick =>
        CheckReplies(cfg, u);
        if s.curr.Some? {
          CheckReplies(cfg, Retire(u));
          DoSendReplies(cfg, u);
        }
      case Regack(topicId, msgId, rc) =>
        if s.curr.Some? {
          CheckReplies(cfg, Retire(u));
          DoSendReplies(cfg, Registered(cfg, s));
        }
      case Puback(_, _, _) =>
        if s.curr.Some? {
          CheckReplies(cfg, Retire(u));
          DoSendReplies(cfg, Load(cfg, u));
        }
      case Pubcomp(_) => if s.curr.Some? { CheckReplies(cfg, Retire(u)); }
      case Pingreq(_) => CheckReplies(cfg, s.(ping := true));
      case OtherMessage => CheckReplies(cfg, s);
      case _ =>
    }
  }

  /** `t` has sent more than `s`: no reply, and then the reply `m`. */
  ghost predicate EndsWith(s: Sender, t: Sender, m: ToClient) {
    && |s.sent| < |t.sent| && s.sent <= t.sent && t.sent[|t.sent| - 1] == m
    && forall j :: |s.sent| <= j < |t.sent| - 1 ==> !IsReply(t.sent[j])
  }

  /** A PINGREQ of a sleeping client with nothing under way: it gets the queue and then one PINGRESP, unless a
      publication keeps the queue from emptying or a disconnect is pending. */
  lemma PingAnswered(cfg: Config, s: Sender)
    requires s.curr.None? && s.ses.status == Asleep
    ensures var t := OnPingreq(cfg, s, true);
            if t.ses.queue == [] && !s.ses.pendingDisconnect then EndsWith(s, t, Pingresp) && !t.ping
            else t.ping && (t.ses.queue != [] ==> t.curr.Some? && NoReply(s, t))
  {
    hide Drain;
    var u := s.(ping := true, armed := false);
    DrainStops(cfg, u);
    DrainNoReply(cfg, u);
  }

  /** A client that is to be disconnected gets the queue and then one DISCONNECT, if it had none. */
  lemma DisconnectAnswered(cfg: Config, s: Sender)
    requires s.curr.None? && s.ses.status == Connected && s.ses.pendingDisconnect
    ensures var t := Check(cfg, s);
            if t.ses.queue == [] && !s.disconnectSent then EndsWith(s, t, Disconnect) && t.disconnectSent
            else NoReply(s, t) && t.disconnectSent == s.disconnectSent && (t.ses.queue != [] ==> t.curr.Some?)
  {
    hide Drain;
    DrainStops(cfg, s.(armed := false));
    DrainNoReply(cfg, s.(armed := false));
  }

  /** A PINGREQ of a sleeping client waits only for the publication under way or behind a pending disconnect. */
  predicate WaitsForReason(s: Sender) {
    s.ping && s.ses.status == Asleep ==> s.curr.Some? || s.ses.pendingDisconnect
  }

  lemma CheckWaits(cfg: Config, s: Sender)
    ensures WaitsForReason(Check(cfg, s))
  {
    hide Drain;
    DrainStops(cfg, s.(armed := false));
  }

  lemma DoSendWaits(cfg: Config, s: Sender)
    requires s.curr.Some?
    ensures WaitsForReason(DoSend(cfg, s))
  {
    hide Attempt, Check;
    CheckWaits(cfg, Attempt(cfg, s));
  }

  /** Every event keeps it, as long as the client does not fall asleep with a PINGREQ left over. */
  lemma AnswerWaits(cfg: Config, s: Sender, e: Event)
    requires WaitsForReason(s) && (e.SetStatus? ==> !s.ping)
    ensures WaitsForReason(Answer(cfg, s, e))
  {
    hide Check, DoSend;
    var u := s.(armed := false);
    CheckWaits(cfg, s);
    CheckWaits(cfg, u);
    CheckWaits(cfg, s.(ping := true));
    if s.curr.Some? {
      CheckWaits(cfg, Retire(u));
      DoSendWaits(cfg, u);
      DoSendWaits(cfg, Registered(cfg, s));
      DoSendWaits(cfg, Load(cfg, u));
    }
  }

  /** The status changes only while no PINGREQ waits. */
  ghost predicate SleepsThrough(cfg: Config, r: Run, es: seq<Event>)
    decreases |es|
  {
    es == [] || ((es[0].SetStatus? ==> !r.snd.ping) && SleepsThrough(cfg, Step(cfg, r, es[0]), es[1..]))
  }

  /** In every run in which the status changes only while no PINGREQ waits, a PINGREQ waits only for a reason. */
  lemma {:induction false} PingsOverRun(cfg: Config, r: Run, es: seq<Event>)
    requires WaitsForReason(r.snd) && SleepsThrough(cfg, r, es)
    ensures WaitsForReason(Exec(cfg, r, es).snd)
    decreases |es|
  {
    hide Answer;
    if es != [] {
      AnswerWaits(cfg, r.snd, es[0]);
      PingsOverRun(cfg, Step(cfg, r, es[0]), es[1..]);
    }
  }

  /** A client that is not connected, has nothing under way and has not asked for it gets nothing. */
  lemma SleeperUndisturbed(cfg: Config, s: Sender, e: Event)
    requires s.curr.None? && s.ses.status != Connected && !s.ping && !NewPing(s, e)
    ensures Answer(cfg, s, e).sent == s.sent
  {
    NobodyWaits(cfg, s);
    NobodyWaits(cfg, s.(armed := false));
  }

  /* The timer */

  /** The timer runs exactly while a publication is under way. */
  predicate TimerRight(s: Sender) {
    s.armed <==> s.curr.Some?
  }

  /** An attempt on a stopped timer starts it unless it retires the publication. */
  lemma AttemptTimer(cfg: Config, s: Sender)
    requires s.curr.Some? && !s.armed
    ensures TimerRight(Attempt(cfg, s))
  {
  }

  lemma {:induction false} DrainTimer(cfg: Config, s: Sender)
    requires TimerRight(s)
    ensures TimerRight(Drain(cfg, s))
    decreases |s.ses.queue|
  {
    hide Attempt, Load;
    if s.ses.queue != [] && s.curr.None? {
      LoadFrame(cfg, Pop(s));
      AttemptTimer(cfg, Load(cfg, Pop(s)));
      StartFrame(cfg, s);
      DrainTimer(cfg, Start(cfg, s));
    }
  }

  lemma CheckTimer(cfg: Config, s: Sender)
    requires TimerRight(s)
    ensures TimerRight(Check(cfg, s))
  {
    hide Drain;
    if MayStart(s) {
      DrainTimer(cfg, s.(armed := false));
    }
  }

  lemma DoSendTimer(cfg: Config, s: Sender)
    requires s.curr.Some? && !s.armed
    ensures TimerRight(DoSend(cfg, s))
  {
    hide Attempt, Check;
    AttemptTimer(cfg, s);
    CheckTimer(cfg, Attempt(cfg, s));
  }

  lemma AnswerTimer(cfg: Config, s: Sender, e: Event)
    requires TimerRight(s)
    ensures TimerRight(Answer(cfg, s, e))
  {
    hide Check, DoSend;
    var u := s.(armed := false);
    CheckTimer(cfg, s);
    CheckTimer(cfg, s.(ping := true));
    if s.curr.None? {
      CheckTimer(cfg, u);
    } else {
      CheckTimer(cfg, Retire(u));
      DoSendTimer(cfg, u);
      DoSendTimer(cfg, Registered(cfg, s));
      DoSendTimer(cfg, Load(cfg, u));
    }
  }

  /** After every run the timer runs exactly while a publication is under way: none is left unwatched. */
  lemma {:induction false} TimerOverRun(cfg: Config, r: Run, es: seq<Event>)
    requires TimerRight(r.snd)
    ensures TimerRight(Exec(cfg, r, es).snd)
    decreases |es|
  {
    hide Answer;
    if es != [] {
      AnswerTimer(cfg, r.snd, es[0]);
      TimerOverRun(cfg, Step(cfg, r, es[0]), es[1..]);
    }
  }
}
