/**
 * The client's timers: slots that count down the milliseconds the application reports.
 *
 * A callback and its data are one number; 0 milliseconds left is the value of a cancelled timer.
 */
module TimerMgr {
  import opened Protocol

  const UINT_MAX: nat := 0xffff_ffff
  const UINT64_MAX: nat := 0xffff_ffff_ffff_ffff

  datatype Slot = Slot(timeoutMs: nat, cb: Option<nat>, isAllocated: bool, suspended: bool)

  const BLANK := Slot(0, None, false, false)

  /** The timer counts down. */
  predicate Running(s: Slot) {
    s.isAllocated && s.cb.Some? && !s.suspended
  }

  function Cancelled(s: Slot): Slot {
    s.(timeoutMs := 0, cb := None)
  }

  predicate Expires(s: Slot, ms: nat) {
    Running(s) && s.timeoutMs <= ms
  }

  function TickSlot(s: Slot, ms: nat): Slot {
    if !Running(s) then s else if s.timeoutMs <= ms then Cancelled(s) else s.(timeoutMs := s.timeoutMs - ms)
  }

  function TickSlots(ts: seq<Slot>, ms: nat): seq<Slot> {
    seq(|ts|, i requires 0 <= i < |ts| => TickSlot(ts[i], ms))
  }

  /** The callbacks a tick calls, in slot order. */
  function Fires(ts: seq<Slot>, ms: nat): seq<nat> {
    if ts == [] then []
    else
      var n := |ts| - 1;
      if Expires(ts[n], ms) then Fires(ts[..n], ms) + [ts[n].cb.value] else Fires(ts[..n], ms)
  }

  lemma FiresStep(ts: seq<Slot>, i: nat, ms: nat)
    requires i < |ts|
    ensures Expires(ts[i], ms) ==> ts[i].cb.Some? && Fires(ts[..i + 1], ms) == Fires(ts[..i], ms) + [ts[i].cb.value]
    ensures !Expires(ts[i], ms) ==> Fires(ts[..i + 1], ms) == Fires(ts[..i], ms)
  {
    assert ts[..i + 1][..i] == ts[..i];
  }

  function Allocated(ts: seq<Slot>): nat {
    if ts == [] then 0 else Allocated(ts[..|ts| - 1]) + (if ts[|ts| - 1].isAllocated then 1 else 0)
  }

  /* Ticks add up */

  lemma {:induction false} FiresAddUp(ts: seq<Slot>, a: nat, b: nat)
    ensures multiset(Fires(ts, a)) + multiset(Fires(TickSlots(ts, a), b)) == multiset(Fires(ts, a + b))
  {
    if ts != [] {
      var n := |ts| - 1;
      FiresAddUp(ts[..n], a, b);
      assert TickSlots(ts, a)[..n] == TickSlots(ts[..n], a);
    }
  }

  /** Two ticks do what one tick of the sum does: the same slots, the same callbacks. */
  lemma TicksAddUp(ts: seq<Slot>, a: nat, b: nat)
    ensures TickSlots(TickSlots(ts, a), b) == TickSlots(ts, a + b)
    ensures multiset(Fires(ts, a)) + multiset(Fires(TickSlots(ts, a), b)) == multiset(Fires(ts, a + b))
  {
    FiresAddUp(ts, a, b);
  }

  function Sum(ticks: seq<nat>): nat {
    if ticks == [] then 0 else ticks[0] + Sum(ticks[1..])
  }

  function AfterTicks(ts: seq<Slot>, ticks: seq<nat>): seq<Slot>
    decreases |ticks|
  {
    if ticks == [] then ts else AfterTicks(TickSlots(ts, ticks[0]), ticks[1..])
  }

  function FiredBy(ts: seq<Slot>, ticks: seq<nat>): multiset<nat>
    decreases |ticks|
  {
    if ticks == [] then multiset{}
    else multiset(Fires(ts, ticks[0])) + FiredBy(TickSlots(ts, ticks[0]), ticks[1..])
  }

  /** However the application cuts the elapsed time into ticks, the outcome is the same. */
  lemma {:induction false} AnyTicks(ts: seq<Slot>, ticks: seq<nat>)
    requires ticks != []
    ensures AfterTicks(ts, ticks) == TickSlots(ts, Sum(ticks))
    ensures FiredBy(ts, ticks) == multiset(Fires(ts, Sum(ticks)))
    decreases |ticks|
  {
    var a := ticks[0];
    if |ticks| > 1 {
      AnyTicks(TickSlots(ts, a), ticks[1..]);
      TicksAddUp(ts, a, Sum(ticks[1..]));
    } else {
      assert ticks[1..] == [];
    }
  }

  lemma {:induction false} FiresNothing(ts: seq<Slot>, ms: nat)
    ensures Fires(ts, ms) == [] <==> forall i :: 0 <= i < |ts| ==> !Expires(ts[i], ms)
  {
    if ts != [] {
      FiresNothing(ts[..|ts| - 1], ms);
    }
  }

  /* The slots in use are counted */

  lemma {:induction false} AllocatedUpdate(ts: seq<Slot>, i: nat, s: Slot)
    requires i < |ts|
    ensures Allocated(ts[i := s]) ==
            Allocated(ts) - (if ts[i].isAllocated then 1 else 0) + (if s.isAllocated then 1 else 0)
  {
    var n := |ts| - 1;
    if i < n {
      AllocatedUpdate(ts[..n], i, s);
      assert ts[i := s][..n] == ts[..n][i := s];
    } else {
      assert ts[i := s][..n] == ts[..n];
    }
  }

  lemma {:induction false} AllocatedSame(ts: seq<Slot>, us: seq<Slot>)
    requires |us| == |ts| && forall i :: 0 <= i < |ts| ==> us[i].isAllocated == ts[i].isAllocated
    ensures Allocated(us) == Allocated(ts)
  {
    if ts != [] {
      AllocatedSame(ts[..|ts| - 1], us[..|us| - 1]);
    }
  }

  /** Fewer in use than there are: one is free. */
  lemma {:induction false} AllocatedAll(ts: seq<Slot>)
    ensures Allocated(ts) <= |ts|
    ensures Allocated(ts) == |ts| <==> forall i :: 0 <= i < |ts| ==> ts[i].isAllocated
  {
    if ts != [] {
      AllocatedAll(ts[..|ts| - 1]);
    }
  }

  lemma {:induction false} AllocatedSome(ts: seq<Slot>, i: nat)
    requires i < |ts| && ts[i].isAllocated
    ensures Allocated(ts) > 0
  {
    if i < |ts| - 1 {
      AllocatedSome(ts[..|ts| - 1], i);
    }
  }

  class Timers {
    const maxSize: nat
    var timers: seq<Slot>
    var allocatedTimers: nat

    /** The counter is right, and a slot that is not in use or has no callback is blank in that respect. */
    ghost predicate Valid()
      reads this
    {
      && allocatedTimers == Allocated(timers)
      && (forall i :: 0 <= i < |timers| && !timers[i].isAllocated ==> timers[i] == BLANK)
      && (forall i :: 0 <= i < |timers| && timers[i].cb.None? ==> timers[i].timeoutMs == 0)
    }

    constructor (maxSize: nat)
      ensures Valid() && timers == [] && this.maxSize == maxSize
    {
      this.maxSize := maxSize;
      timers, allocatedTimers := [], 0;
    }

    /** A free slot, or a new one; `None` only when all slots there may be are in use. */
    method AllocTimer() returns (idx: Option<nat>)
      requires Valid()
      modifies this
      ensures Valid()
      ensures idx.None? <==> old(Allocated(timers)) == old(|timers|) && maxSize <= old(|timers|)
      ensures idx.None? ==> timers == old(timers)
      ensures idx.Some? ==>
                && idx.value < |timers| && timers[idx.value] == BLANK.(isAllocated := true)
                && (idx.value < old(|timers|) ==> timers == old(timers)[idx.value := timers[idx.value]]
                                                  && old(timers)[idx.value] == BLANK)
                && (idx.value >= old(|timers|) ==> timers == old(timers) + [timers[idx.value]])
    {
      AllocatedAll(timers);
      if allocatedTimers < |timers| {
        var i := 0;
        while timers[i].isAllocated
          invariant i < |timers| && forall j :: 0 <= j < i ==> timers[j].isAllocated
          modifies {}
          decreases |timers| - i
        {
          i := i + 1;
        }
        AllocatedUpdate(timers, i, timers[i].(isAllocated := true));
        timers := timers[i := timers[i].(isAllocated := true)];
        allocatedTimers := allocatedTimers + 1;
        return Some(i);
      }
      if maxSize <= |timers| {
        return None;
      }
      var i := |timers|;
      timers := timers + [BLANK.(isAllocated := true)];
      assert timers[..i] == old(timers);
      allocatedTimers := allocatedTimers + 1;
      return Some(i);
    }

    method FreeTimer(idx: nat)
      requires Valid() && idx < |timers| && timers[idx].isAllocated
      modifies this
      ensures Valid() && timers == old(timers)[idx := BLANK]
    {
      AllocatedSome(timers, idx);
      AllocatedUpdate(timers, idx, BLANK);
      timers := timers[idx := BLANK];
      allocatedTimers := allocatedTimers - 1;
    }

    method TimerWait(idx: nat, timeoutMs: nat, cb: nat)
      requires Valid() && idx < |timers| && timers[idx].isAllocated
      modifies `timers
      ensures Valid() && timers == old(timers)[idx := old(timers)[idx].(timeoutMs := timeoutMs, cb := Some(cb))]
    {
      timers := timers[idx := timers[idx].(timeoutMs := timeoutMs, cb := Some(cb))];
      AllocatedSame(old(timers), timers);
    }

    method TimerCancel(idx: nat)
      requires Valid() && idx < |timers| && timers[idx].isAllocated
      modifies `timers
      ensures Valid() && timers == old(timers)[idx := Cancelled(old(timers)[idx])]
    {
      timers := timers[idx := Cancelled(timers[idx])];
      AllocatedSame(old(timers), timers);
    }

    method TimerSetSuspended(idx: nat, suspended: bool)
      requires Valid() && idx < |timers| && timers[idx].isAllocated
      modifies `timers
      ensures Valid() && timers == old(timers)[idx := old(timers)[idx].(suspended := suspended)]
    {
      timers := timers[idx := timers[idx].(suspended := suspended)];
      AllocatedSame(old(timers), timers);
    }

    method TickOne(idx: nat, ms: nat) returns (cb: Option<nat>)
      requires Valid() && idx < |timers|
      modifies `timers
      ensures Valid() && timers == old(timers)[idx := TickSlot(old(timers)[idx], ms)]
      ensures cb == if Expires(old(timers)[idx], ms) then old(timers)[idx].cb else None
    {
      var info := timers[idx];
      if !Running(info) {
        return None;
      }
      if info.timeoutMs <= ms {
        TimerCancel(idx);
        return info.cb;
      }
      timers := timers[idx := info.(timeoutMs := info.timeoutMs - ms)];
      AllocatedSame(old(timers), timers);
      return None;
    }

    /** The callbacks are collected first and called after all slots are done. */
    method Tick(ms: nat) returns (cbList: seq<nat>)
      requires Valid()
      modifies `timers
      ensures Valid() && timers == TickSlots(old(timers), ms) && cbList == Fires(old(timers), ms)
    {
      hide TickSlot, Expires, Allocated;
      cbList := [];
      var idx := 0;
      ghost var before := timers;
      while idx < |timers|
        invariant idx <= |timers| == |before| && Valid()
        invariant forall j :: 0 <= j < idx ==> timers[j] == TickSlot(before[j], ms)
        invariant forall j :: idx <= j < |before| ==> timers[j] == before[j]
        invariant cbList == Fires(before[..idx], ms)
      {
        assert before[..idx + 1][..idx] == before[..idx];
        var cb := TickOne(idx, ms);
        if cb.Some? {
          cbList := cbList + [cb.value];
        }
        FiresStep(before, idx, ms);
        idx := idx + 1;
      }
      assert before[..idx] == before;
    }

    /**
     * The least time to wait.  0 stands for no running timer, but is also the answer when a running
     * timer has no time left or the least is the largest 64-bit value.
     */
    method GetMinWait() returns (wait: nat)
      requires Valid() && forall i :: 0 <= i < |timers| ==> timers[i].timeoutMs <= UINT64_MAX
      ensures wait == 0 <==>
                || (exists i :: 0 <= i < |timers| && Expires(timers[i], 0))
                || (forall i :: 0 <= i < |timers| && Running(timers[i]) ==> timers[i].timeoutMs == UINT64_MAX)
      ensures forall ms: nat :: ms < wait ==> Fires(timers, ms) == []
      ensures 0 < wait < UINT_MAX ==> Fires(timers, wait) != []
    {
      AllocatedAll(timers);
      if allocatedTimers == 0 {
        NoneInUse(timers);
        return 0;
      }
      var result, idx := UINT64_MAX, 0;
      while idx < |timers|
        invariant idx <= |timers| && result <= UINT64_MAX
        invariant forall i :: 0 <= i < idx && Running(timers[i]) ==> result <= timers[i].timeoutMs
        invariant result != UINT64_MAX ==>
                    exists i :: 0 <= i < idx && Running(timers[i]) && timers[i].timeoutMs == result
      {
        if Running(timers[idx]) && timers[idx].timeoutMs < result {
          result := timers[idx].timeoutMs;
        }
        idx := idx + 1;
      }
      if result == UINT64_MAX {
        return 0;
      }
      wait := if result < UINT_MAX then result else UINT_MAX;
      forall ms: nat | ms < wait ensures Fires(timers, ms) == [] {
        FiresNothing(timers, ms);
      }
      FiresNothing(timers, wait);
    }
  }

  lemma {:induction false} NoneInUse(ts: seq<Slot>)
    requires Allocated(ts) == 0
    ensures forall i :: 0 <= i < |ts| ==> !ts[i].isAllocated
  {
    if ts != [] {
      NoneInUse(ts[..|ts| - 1]);
    }
  }

  /** A retry period of 0 is accepted: the timer of the operation runs, and the answer is that of no timer at all. */
  method ZeroPeriodLooksIdle() returns (mgr: Timers, wait: nat)
    ensures |mgr.timers| == 1 && Running(mgr.timers[0]) && wait == 0 && Fires(mgr.timers, wait) != []
  {
    mgr := new Timers(1);
    var idx := mgr.AllocTimer();
    mgr.TimerWait(idx.value, 0, 1);
    wait := mgr.GetMinWait();
    assert Expires(mgr.timers[0], 0);
    FiresNothing(mgr.timers, 0);
  }
}
