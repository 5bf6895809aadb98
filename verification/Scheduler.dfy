/**
 * The gateway session's timer: one tick request for the deadlines of all its operations.
 *
 * An operation is its index in the session.  What an operation does in `tickImpl` is a list of commands
 * given by `effects` for every firing (it may end the session), and an API call may issue commands while it
 * is open.  `log` is the history; the deadlines are a function of it.  Timestamps are 64-bit counters and not
 * wrapped here.
 */
module Scheduler {
  import opened Protocol

  const UINT_MAX: nat := 0xffff_ffff
  const NO_TIMEOUT: nat := UINT_MAX
  const INITIAL_TIMESTAMP: nat := 1000

  /** The longest time an operation asks for: retry periods are capped at this many milliseconds. */
  const MAX_REQUEST: nat := UINT_MAX / 1000 * 1000

  datatype Command = Arm(op: nat, ms: nat) | Cancel(op: nat) | Terminate

  datatype Note =
    | Armed(op: nat, at: nat, ms: nat)
    | Cancelled(op: nat)
    | Fired(op: nat, deadline: nat, firedAt: nat)

  predicate Allowed(commands: seq<Command>, n: nat) {
    forall c :: c in commands ==> (c.Terminate? || c.op < n) && (c.Arm? ==> c.ms <= MAX_REQUEST)
  }

  function SetRetryPeriod(value: nat): (ms: nat)
    ensures ms <= MAX_REQUEST < NO_TIMEOUT
    ensures if 1000 * value <= MAX_REQUEST then ms == 1000 * value else ms == MAX_REQUEST
  {
    (if value < UINT_MAX / 1000 then value else UINT_MAX / 1000) * 1000
  }

  /* History */

  /** What commands issued at this time leave in the history. */
  function Notes(commands: seq<Command>, now: nat): seq<Note> {
    if commands == [] then []
    else
      var last := commands[|commands| - 1];
      Notes(commands[..|commands| - 1], now) +
      match last
      case Arm(op, ms) => [Armed(op, now, ms)]
      case Cancel(op) => [Cancelled(op)]
      case Terminate => []
  }

  /** The request of `op` that is in force. */
  function Pending(log: seq<Note>, op: nat): Option<Note> {
    if log == [] then None
    else
      var last := log[|log| - 1];
      if last.op != op then Pending(log[..|log| - 1], op) else if last.Armed? then Some(last) else None
  }

  lemma PendingStep(log: seq<Note>, note: Note, op: nat)
    ensures Pending(log + [note], op) ==
            if note.op != op then Pending(log, op) else if note.Armed? then Some(note) else None
  {
    assert (log + [note])[..|log|] == log;
  }

  /** The field of the operation: 0 when no tick is requested. */
  predicate Shows(deadline: nat, pending: Option<Note>) {
    match pending
    case None => deadline == 0
    case Some(note) => note.Armed? && deadline == note.at + note.ms && 0 < note.at
  }

  /** An operation only ticks for a request that is in force, and not before its deadline. */
  ghost predicate Justified(log: seq<Note>) {
    forall k :: 0 <= k < |log| && log[k].Fired? ==>
      log[k].deadline != 0 && Shows(log[k].deadline, Pending(log[..k], log[k].op)) && log[k].deadline <= log[k].firedAt
  }

  /** Ticks at its deadline; at most 1 ms later if the request was for no time at all. */
  ghost predicate OnTime(log: seq<Note>) {
    forall k :: 0 <= k < |log| && log[k].Fired? ==>
      || log[k].firedAt == log[k].deadline
      || (ZeroRequest(Pending(log[..k], log[k].op)) && log[k].firedAt == log[k].deadline + 1)
  }

  predicate ZeroRequest(pending: Option<Note>) {
    pending.Some? && pending.value.Armed? && pending.value.ms == 0
  }

  /** Since entry `start`, `op` ticked, was re-armed or was cancelled. */
  ghost predicate Touched(log: seq<Note>, start: nat, op: nat) {
    exists k :: start <= k < |log| && log[k].op == op
  }

  lemma StaysTouched(log: seq<Note>, log': seq<Note>, start: nat, op: nat)
    requires Touched(log, start, op) && log <= log'
    ensures Touched(log', start, op)
  {
    var k :| start <= k < |log| && log[k].op == op;
    assert log'[k] == log[k];
  }

  lemma JustifiedStep(log: seq<Note>, note: Note)
    requires Justified(log)
    requires note.Fired? ==>
               0 < note.deadline <= note.firedAt && Shows(note.deadline, Pending(log, note.op))
    ensures Justified(log + [note])
  {
    var log' := log + [note];
    forall k | 0 <= k < |log'| && log'[k].Fired?
      ensures log'[k].deadline != 0 && Shows(log'[k].deadline, Pending(log'[..k], log'[k].op))
              && log'[k].deadline <= log'[k].firedAt
    {
      assert log'[..k] == log[..k];
      assert log[..|log|] == log;
    }
  }

  lemma OnTimeStep(log: seq<Note>, note: Note)
    requires OnTime(log)
    requires note.Fired? ==>
               || note.firedAt == note.deadline
               || (ZeroRequest(Pending(log, note.op)) && note.firedAt == note.deadline + 1)
    ensures OnTime(log + [note])
  {
    var log' := log + [note];
    forall k | 0 <= k < |log'| && log'[k].Fired?
      ensures || log'[k].firedAt == log'[k].deadline
              || (ZeroRequest(Pending(log'[..k], log'[k].op)) && log'[k].firedAt == log'[k].deadline + 1)
    {
      assert log'[..k] == log[..k];
      assert log[..|log|] == log;
    }
  }

  /* Deadlines */

  /** Milliseconds until an armed operation must tick, at least 1. */
  function Remaining(deadline: nat, now: nat): nat {
    if deadline <= now then 1 else deadline - now
  }

  /** The session asks for the least remaining time, for nothing if no operation is armed. */
  ghost predicate Programmed(deadlines: seq<nat>, now: nat, req: nat) {
    && (req == 0 <==> forall i :: 0 <= i < |deadlines| ==> deadlines[i] == 0)
    && (forall i :: 0 <= i < |deadlines| && deadlines[i] != 0 ==> req <= Remaining(deadlines[i], now))
    && (req != 0 ==> exists i :: 0 <= i < |deadlines| && deadlines[i] != 0 && req == Remaining(deadlines[i], now))
  }

  /** Between calls of a punctual driver a deadline is ahead, or is now and was asked for with no time. */
  predicate Ahead(deadline: nat, pending: Option<Note>, now: nat) {
    deadline == 0 || now < deadline || (now == deadline && ZeroRequest(pending))
  }

  /** What the driver's step makes of it before the operation is looked at. */
  predicate AheadOrDue(deadline: nat, pending: Option<Note>, now: nat) {
    deadline == 0 || now <= deadline || (now == deadline + 1 && ZeroRequest(pending))
  }

  lemma DriverStep(deadlines: seq<nat>, now: nat, req: nat, elapsed: nat, i: nat, pending: Option<Note>)
    requires Programmed(deadlines, now, req) && elapsed <= req && i < |deadlines| && Ahead(deadlines[i], pending, now)
    ensures AheadOrDue(deadlines[i], pending, now + elapsed)
  {
  }

  /** The fields agree with the history. */
  ghost predicate Sound(log: seq<Note>, deadlines: seq<nat>, now: nat) {
    && INITIAL_TIMESTAMP <= now && Justified(log)
    && (forall i: nat :: i < |deadlines| ==> Shows(deadlines[i], Pending(log, i)))
    && (forall i: nat :: i < |deadlines| ==> deadlines[i] <= now + MAX_REQUEST)
  }

  /** Ticks were on time so far; operations before `from` have been looked at since time moved. */
  ghost predicate Timely(log: seq<Note>, deadlines: seq<nat>, now: nat, from: nat) {
    && OnTime(log)
    && (forall i: nat :: i < |deadlines| && i < from ==> Ahead(deadlines[i], Pending(log, i), now))
    && (forall i: nat :: i < |deadlines| ==> AheadOrDue(deadlines[i], Pending(log, i), now))
  }

  lemma Noted(log: seq<Note>, note: Note)
    ensures forall i: nat :: Pending(log + [note], i) ==
                             if note.op != i then Pending(log, i) else if note.Armed? then Some(note) else None
  {
    forall i: nat ensures Pending(log + [note], i) ==
                             if note.op != i then Pending(log, i) else if note.Armed? then Some(note) else None
    {
      PendingStep(log, note, i);
    }
  }

  lemma ArmKeeps(log: seq<Note>, deadlines: seq<nat>, now: nat, from: nat, op: nat, ms: nat)
    requires Sound(log, deadlines, now) && op < |deadlines| && ms <= MAX_REQUEST
    ensures Sound(log + [Armed(op, now, ms)], deadlines[op := now + ms], now)
    ensures Timely(log, deadlines, now, from) ==>
              Timely(log + [Armed(op, now, ms)], deadlines[op := now + ms], now, from)
  {
    var note := Armed(op, now, ms);
    Noted(log, note);
    JustifiedStep(log, note);
    if OnTime(log) {
      OnTimeStep(log, note);
    }
  }

  lemma CancelKeeps(log: seq<Note>, deadlines: seq<nat>, now: nat, from: nat, op: nat)
    requires Sound(log, deadlines, now) && op < |deadlines|
    ensures Sound(log + [Cancelled(op)], deadlines[op := 0], now)
    ensures Timely(log, deadlines, now, from) ==> Timely(log + [Cancelled(op)], deadlines[op := 0], now, from)
  {
    var note := Cancelled(op);
    Noted(log, note);
    JustifiedStep(log, note);
    if OnTime(log) {
      OnTimeStep(log, note);
    }
  }

  lemma FireKeeps(log: seq<Note>, deadlines: seq<nat>, now: nat, op: nat)
    requires Sound(log, deadlines, now) && op < |deadlines| && 0 < deadlines[op] <= now
    ensures Sound(log + [Fired(op, deadlines[op], now)], deadlines[op := 0], now)
    ensures Timely(log, deadlines, now, op) ==>
              Timely(log + [Fired(op, deadlines[op], now)], deadlines[op := 0], now, op + 1)
  {
    var note := Fired(op, deadlines[op], now);
    Noted(log, note);
    JustifiedStep(log, note);
    if Timely(log, deadlines, now, op) {
      assert AheadOrDue(deadlines[op], Pending(log, op), now);
      OnTimeStep(log, note);
    }
  }

  lemma SkipKeeps(log: seq<Note>, deadlines: seq<nat>, now: nat, op: nat)
    requires op < |deadlines| && (deadlines[op] == 0 || now < deadlines[op])
    ensures Timely(log, deadlines, now, op) ==> Timely(log, deadlines, now, op + 1)
  {
  }

  lemma LookAgain(log: seq<Note>, deadlines: seq<nat>, now: nat, from: nat)
    ensures Timely(log, deadlines, now, from) ==> Timely(log, deadlines, now, 0)
  {
  }

  lemma AdvanceKeeps(log: seq<Note>, deadlines: seq<nat>, now: nat, req: nat, elapsed: nat)
    requires Sound(log, deadlines, now)
    ensures Sound(log, deadlines, now + elapsed)
    ensures Programmed(deadlines, now, req) && elapsed <= req && Timely(log, deadlines, now, |deadlines|) ==>
              Timely(log, deadlines, now + elapsed, 0)
  {
    if Programmed(deadlines, now, req) && elapsed <= req && Timely(log, deadlines, now, |deadlines|) {
      forall i: nat | i < |deadlines| ensures AheadOrDue(deadlines[i], Pending(log, i), now + elapsed) {
        DriverStep(deadlines, now, req, elapsed, i, Pending(log, i));
      }
    }
  }

  class Session {
    const effects: nat -> seq<Command>
    const opCount: nat
    var deadlines: seq<nat>
    var timestamp: nat
    var tickReq: nat
    var callStackCount: nat
    var terminating: bool
    var fires: nat
    ghost var punctual: bool
    ghost var log: seq<Note>

    /** Inside an API call; the operations before `from` have been looked at since it began. */
    ghost predicate Open(from: nat)
      reads this
    {
      && Sound(log, deadlines, timestamp) && |deadlines| == opCount && (forall k :: Allowed(effects(k), opCount))
      && tickReq == 0 && (punctual ==> Timely(log, deadlines, timestamp, from))
    }

    /** Between API calls. */
    ghost predicate Idle()
      reads this
    {
      && Sound(log, deadlines, timestamp) && |deadlines| == opCount && (forall k :: Allowed(effects(k), opCount))
      && callStackCount == 0 && (punctual ==> Timely(log, deadlines, timestamp, opCount))
      && if terminating then tickReq == 0 else Programmed(deadlines, timestamp, tickReq)
    }

    /** A session that has been started. */
    constructor (opCount: nat, effects: nat -> seq<Command>)
      requires forall k :: Allowed(effects(k), opCount)
      ensures Idle() && punctual && !terminating && log == []
      ensures this.opCount == opCount && this.effects == effects
    {
      this.effects, this.opCount := effects, opCount;
      deadlines := seq(opCount, i => 0);
      timestamp, tickReq, callStackCount, terminating, fires := INITIAL_TIMESTAMP, 0, 0, false, 0;
      punctual, log := true, [];
    }

    method NextTickReq(op: nat, ms: nat, ghost from: nat)
      requires Open(from) && op < opCount && ms <= MAX_REQUEST
      modifies `deadlines, `log
      ensures Open(from) && log == old(log) + [Armed(op, timestamp, ms)]
      ensures deadlines == old(deadlines)[op := timestamp + ms]
    {
      ArmKeeps(log, deadlines, timestamp, from, op, ms);
      log := log + [Armed(op, timestamp, ms)];
      deadlines := deadlines[op := timestamp + ms];
    }

    method CancelTick(op: nat, ghost from: nat)
      requires Open(from) && op < opCount
      modifies `deadlines, `log
      ensures Open(from) && log == old(log) + [Cancelled(op)]
      ensures deadlines == old(deadlines)[op := 0]
    {
      CancelKeeps(log, deadlines, timestamp, from, op);
      log := log + [Cancelled(op)];
      deadlines := deadlines[op := 0];
    }

    /** An operation ends the session; its timer is then not set again. */
    method TermRequest()
      modifies `terminating
      ensures terminating
    {
      terminating := true;
    }

    /** The commands an operation issues while it handles something. */
    method Run(commands: seq<Command>, ghost from: nat)
      requires Open(from) && Allowed(commands, opCount)
      modifies `deadlines, `log, `terminating
      ensures Open(from) && log == old(log) + Notes(commands, timestamp)
      ensures terminating == (old(terminating) || Terminate in commands)
      ensures forall i: nat :: i < opCount ==> deadlines[i] == old(deadlines)[i] || Touched(log, |old(log)|, i)
    {
      hide Sound, Timely, Touched;
      var k := 0;
      while k < |commands|
        invariant k <= |commands| && Open(from) && log == old(log) + Notes(commands[..k], timestamp)
        invariant terminating == (old(terminating) || Terminate in commands[..k])
        invariant forall i: nat :: i < opCount ==> deadlines[i] == old(deadlines)[i] || Touched(log, |old(log)|, i)
      {
        assert commands[k] in commands && commands[..k + 1][..k] == commands[..k];
        ghost var before := log;
        match commands[k] {
          case Arm(op, ms) => NextTickReq(op, ms, from);
          case Cancel(op) => CancelTick(op, from);
          case Terminate => TermRequest();
        }
        if !commands[k].Terminate? {
          TouchedStep(before, log, |old(log)|);
        }
        k := k + 1;
      }
      assert commands[..k] == commands;
    }

    method TimestampUpdated(op: nat)
      requires Open(op) && op < opCount
      modifies `deadlines, `log, `fires, `terminating
      ensures Open(op + 1) && old(log) <= log && (old(terminating) ==> terminating)
      ensures forall i: nat :: i < opCount ==> deadlines[i] == old(deadlines)[i] || Touched(log, |old(log)|, i)
      ensures if 0 < old(deadlines)[op] <= timestamp then
                && Touched(log, |old(log)|, op) && fires == old(fires) + 1
                && log == old(log) + [Fired(op, old(deadlines)[op], timestamp)] + Notes(effects(old(fires)), timestamp)
                && terminating == (old(terminating) || Terminate in effects(old(fires)))
              else deadlines == old(deadlines) && log == old(log) && fires == old(fires)
                   && terminating == old(terminating)
    {
      hide Sound, Timely, Touched;
      if deadlines[op] != 0 && deadlines[op] <= timestamp {
        FireKeeps(log, deadlines, timestamp, op);
        log := log + [Fired(op, deadlines[op], timestamp)];
        deadlines := deadlines[op := 0];
        fires := fires + 1;
        ghost var before := log;
        TouchedStep(old(log), log, |old(log)|);
        Run(effects(fires - 1), op + 1);
        TouchedLater(before, log, |old(log)|);
      } else {
        SkipKeeps(log, deadlines, timestamp, op);
      }
    }

    /** No due operation is passed over: it ticks, unless a tick before it in this pass re-armed or cancelled it. */
    method UpdateOps()
      requires Open(0)
      modifies `deadlines, `log, `fires, `terminating
      ensures Open(opCount) && old(log) <= log && (old(terminating) ==> terminating)
      ensures forall i: nat :: i < opCount && 0 < old(deadlines)[i] <= timestamp ==> Touched(log, |old(log)|, i)
    {
      hide Sound, Timely, Touched;
      var op := 0;
      while op < opCount
        invariant op <= opCount && Open(op) && old(log) <= log && (old(terminating) ==> terminating)
        invariant forall i: nat :: i < opCount ==> deadlines[i] == old(deadlines)[i] || Touched(log, |old(log)|, i)
        invariant forall i: nat :: i < op && 0 < old(deadlines)[i] <= timestamp ==> Touched(log, |old(log)|, i)
      {
        ghost var before := log;
        TimestampUpdated(op);
        TouchedLater(before, log, |old(log)|);
        op := op + 1;
      }
    }

    method UpdateTimestamp(elapsed: nat)
      requires Idle()
      modifies `deadlines, `log, `fires, `timestamp, `tickReq, `punctual, `terminating
      ensures Open(opCount) && old(log) <= log && (old(terminating) ==> terminating)
      ensures punctual == (old(punctual) && (old(tickReq) == 0 || elapsed <= old(tickReq)))
      ensures timestamp == if old(tickReq) == 0 then old(timestamp) else old(timestamp) + elapsed
      ensures forall i: nat :: i < opCount && 0 < old(deadlines)[i] <= timestamp && old(tickReq) != 0 ==>
                Touched(log, |old(log)|, i)
    {
      hide Sound, Timely, Touched;
      if tickReq == 0 {
        return;
      }
      AdvanceKeeps(log, deadlines, timestamp, tickReq, elapsed);
      punctual := punctual && elapsed <= tickReq;
      timestamp := timestamp + elapsed;
      tickReq := 0;
      UpdateOps();
    }

    /** Begin of an API call; `elapsed` is what the driver's cancel callback returns. */
    method ApiCall(elapsed: nat)
      requires if callStackCount == 0 then Idle() else Open(opCount)
      modifies this
      ensures Open(opCount) && callStackCount == old(callStackCount) + 1 && (old(terminating) ==> terminating)
      ensures old(log) <= log
      ensures old(callStackCount) == 0 && old(tickReq) != 0 ==>
                && timestamp == old(timestamp) + elapsed
                && forall i: nat :: i < opCount && 0 < old(deadlines)[i] <= timestamp ==> Touched(log, |old(log)|, i)
      ensures old(callStackCount) != 0 ==> deadlines == old(deadlines) && timestamp == old(timestamp) && log == old(log)
      ensures elapsed <= old(tickReq) || old(tickReq) == 0 || old(callStackCount) != 0 ==> punctual == old(punctual)
    {
      hide Sound, Timely, Touched, Programmed;
      if callStackCount == 0 {
        UpdateTimestamp(elapsed);
      }
      callStackCount := callStackCount + 1;
    }

    /** `nextTick` of an operation. */
    method NextTick(op: nat) returns (delay: nat)
      requires Sound(log, deadlines, timestamp) && op < |deadlines|
      ensures deadlines[op] == 0 ==> delay == NO_TIMEOUT
      ensures deadlines[op] != 0 ==> delay == Remaining(deadlines[op], timestamp) && 0 < delay < NO_TIMEOUT
    {
      if deadlines[op] == 0 {
        return NO_TIMEOUT;
      }
      if deadlines[op] <= timestamp {
        return 1;
      }
      // the remaining time fits in 32 bits: it was at most MAX_REQUEST when it was asked for
      return deadlines[op] - timestamp;
    }

    method ProgramNextTimeout()
      requires Sound(log, deadlines, timestamp) && tickReq == 0
      modifies `tickReq
      ensures Programmed(deadlines, timestamp, tickReq)
    {
      hide Sound;
      var delay, op := NO_TIMEOUT, 0;
      while op < |deadlines|
        invariant op <= |deadlines| && 0 < delay <= NO_TIMEOUT
        invariant forall i :: 0 <= i < op && deadlines[i] != 0 ==> delay <= Remaining(deadlines[i], timestamp)
        invariant if delay == NO_TIMEOUT then forall i :: 0 <= i < op ==> deadlines[i] == 0
                  else exists i :: 0 <= i < op && deadlines[i] != 0 && delay == Remaining(deadlines[i], timestamp)
        modifies {}
      {
        var next := NextTick(op);
        if next < delay {
          delay := next;
        }
        op := op + 1;
      }
      if delay == NO_TIMEOUT {
        return;
      }
      tickReq := delay;
    }

    /** End of an API call. */
    method ApiCallExit()
      requires Open(opCount) && 0 < callStackCount
      modifies `callStackCount, `tickReq
      ensures callStackCount == old(callStackCount) - 1
      ensures if callStackCount == 0 then Idle() else Open(opCount)
    {
      hide Sound, Timely, Programmed;
      callStackCount := callStackCount - 1;
      if terminating {
        return;
      }
      if callStackCount == 0 {
        ProgramNextTimeout();
      }
    }

    /** The time asked for has passed. */
    method Tick()
      requires if callStackCount == 0 then Idle() else Open(opCount)
      modifies this
      ensures if callStackCount == 0 then Idle() else Open(opCount)
      ensures callStackCount == old(callStackCount) && (old(terminating) ==> terminating) && punctual == old(punctual)
      ensures old(log) <= log
      ensures !old(terminating) ==>
                && timestamp == old(timestamp) + old(tickReq)
                && forall i: nat :: i < opCount && 0 < old(deadlines)[i] <= timestamp ==> Touched(log, |old(log)|, i)
    {
      hide Sound, Timely, Touched, Programmed;
      if terminating {
        return;
      }
      ghost var wasIdle := callStackCount == 0;
      if wasIdle {
        AdvanceKeeps(log, deadlines, timestamp, tickReq, tickReq);
      }
      timestamp := timestamp + tickReq;
      tickReq := 0;
      callStackCount := callStackCount + 1;
      if !wasIdle {
        LookAgain(log, deadlines, timestamp, opCount);
      }
      UpdateOps();
      ApiCallExit();
    }
  }

  lemma TouchedStep(log: seq<Note>, log': seq<Note>, start: nat)
    requires start <= |log| && |log'| == |log| + 1 && log <= log'
    ensures Touched(log', start, log'[|log|].op)
    ensures forall i: nat :: Touched(log, start, i) ==> Touched(log', start, i)
  {
    forall i: nat | Touched(log, start, i) ensures Touched(log', start, i) {
      StaysTouched(log, log', start, i);
    }
  }

  lemma TouchedLater(log: seq<Note>, log': seq<Note>, start: nat)
    requires start <= |log| && log <= log'
    ensures forall i: nat :: Touched(log, start, i) || Touched(log', |log|, i) ==> Touched(log', start, i)
  {
    forall i: nat | Touched(log, start, i) ensures Touched(log', start, i) {
      StaysTouched(log, log', start, i);
    }
    forall i: nat | Touched(log', |log|, i) ensures Touched(log', start, i) {
      var k :| |log| <= k < |log'| && log'[k].op == i;
    }
  }
}
