/**
 * Gateway discovery in the client: known gateways expire at absolute times, while the timer that
 * watches them counts down.  `Coupled` says that the two never drift apart.
 *
 * The discovery timer is one slot of the timer manager, which ticks all its slots alike.  Application
 * callbacks are recorded in `reports` and do not edit the list.  Timestamps are 64-bit counters and
 * not wrapped here.
 */
module GatewayExpiry {
  import opened Protocol
  import T = TimerMgr

  datatype GwInfo = GwInfo(gwId: nat, addr: seq<nat>, expiry: nat, duration: nat, advLosses: nat)

  datatype GwStatus = AddedByGateway | AddedByClient | UpdatedByClient | Alive | Tentative | Removed

  datatype Report = Report(status: GwStatus, gwId: nat)

  const EXPIRY_CB: nat := 0

  const STOPPED := T.Slot(0, None, true, false)

  ghost predicate DistinctIds(gws: seq<GwInfo>) {
    forall i, j :: 0 <= i < j < |gws| ==> gws[i].gwId != gws[j].gwId
  }

  ghost predicate AllAhead(gws: seq<GwInfo>, now: nat) {
    forall i :: 0 <= i < |gws| ==> now < gws[i].expiry
  }

  ghost predicate IsLeast(gws: seq<GwInfo>, t: nat) {
    && (forall i :: 0 <= i < |gws| ==> t <= gws[i].expiry)
    && (exists i :: 0 <= i < |gws| && gws[i].expiry == t)
  }

  /** The timer is stopped if no gateway is known, and otherwise runs to the least expiry. */
  ghost predicate Watches(timer: T.Slot, gws: seq<GwInfo>, now: nat) {
    if gws == [] then timer == STOPPED
    else T.Running(timer) && timer.cb == Some(EXPIRY_CB) && IsLeast(gws, now + timer.timeoutMs)
  }

  /* An expiry timeout */

  /** A late gateway with losses to spare gets one more advertise period. */
  function Renewed(g: GwInfo, now: nat): GwInfo {
    if now < g.expiry || g.advLosses == 0 then g
    else g.(advLosses := g.advLosses - 1, expiry := g.expiry + g.duration)
  }

  function Survivors(gws: seq<GwInfo>, now: nat): seq<GwInfo> {
    if gws == [] then []
    else
      var n := |gws| - 1;
      if Renewed(gws[n], now).expiry <= now then Survivors(gws[..n], now)
      else Survivors(gws[..n], now) + [Renewed(gws[n], now)]
  }

  function LateReports(gws: seq<GwInfo>, now: nat): seq<Report> {
    if gws == [] then []
    else
      var n := |gws| - 1;
      var rest := LateReports(gws[..n], now);
      if now < gws[n].expiry then rest
      else rest + [Report(if gws[n].advLosses == 0 then Removed else Tentative, gws[n].gwId)]
  }

  lemma {:induction false} SurvivorIds(gws: seq<GwInfo>, now: nat, id: nat)
    ensures HasId(Survivors(gws, now), id) ==> HasId(gws, id)
  {
    if gws != [] {
      var n := |gws| - 1;
      SurvivorIds(gws[..n], now, id);
      IdInAppended(Survivors(gws[..n], now), Renewed(gws[n], now), id);
      IdInLast(gws, id);
    }
  }

  lemma {:induction false} SurvivorsValid(gws: seq<GwInfo>, now: nat)
    requires DistinctIds(gws)
    ensures DistinctIds(Survivors(gws, now)) && AllAhead(Survivors(gws, now), now)
  {
    if gws != [] {
      var n := |gws| - 1;
      SurvivorsValid(gws[..n], now);
      SurvivorIds(gws[..n], now, gws[n].gwId);
    }
  }

  /** Who stays: gateways that are not late, and late ones with a loss to spare whose next period is not over too. */
  lemma {:induction false} WhoSurvives(gws: seq<GwInfo>, now: nat, i: nat)
    requires DistinctIds(gws) && i < |gws|
    ensures HasId(Survivors(gws, now), gws[i].gwId) <==>
            now < gws[i].expiry || (gws[i].advLosses != 0 && now < gws[i].expiry + gws[i].duration)
  {
    var n := |gws| - 1;
    IdInAppended(Survivors(gws[..n], now), Renewed(gws[n], now), gws[i].gwId);
    if i < n {
      WhoSurvives(gws[..n], now, i);
    } else {
      SurvivorIds(gws[..n], now, gws[n].gwId);
    }
  }

  ghost predicate HasId(gws: seq<GwInfo>, id: nat) {
    exists i :: 0 <= i < |gws| && gws[i].gwId == id
  }

  lemma IdInAppended(gws: seq<GwInfo>, g: GwInfo, id: nat)
    ensures HasId(gws + [g], id) <==> HasId(gws, id) || g.gwId == id
  {
    if HasId(gws, id) {
      var i :| 0 <= i < |gws| && gws[i].gwId == id;
      assert (gws + [g])[i].gwId == id;
    }
    assert (gws + [g])[|gws|] == g;
  }

  lemma IdInLast(gws: seq<GwInfo>, id: nat)
    requires gws != []
    ensures HasId(gws, id) <==> HasId(gws[..|gws| - 1], id) || gws[|gws| - 1].gwId == id
  {
    IdInAppended(gws[..|gws| - 1], gws[|gws| - 1], id);
    assert gws == gws[..|gws| - 1] + [gws[|gws| - 1]];
  }

  /** A gateway goes without a `Removed` report exactly when a renewed period is over as well. */
  lemma {:induction false} RemovedReports(gws: seq<GwInfo>, now: nat, i: nat)
    requires DistinctIds(gws) && i < |gws|
    ensures Report(Removed, gws[i].gwId) in LateReports(gws, now) <==> gws[i].expiry <= now && gws[i].advLosses == 0
    ensures Report(Tentative, gws[i].gwId) in LateReports(gws, now) <==> gws[i].expiry <= now && gws[i].advLosses != 0
  {
    var n := |gws| - 1;
    if i < n {
      RemovedReports(gws[..n], now, i);
    } else {
      NotReported(gws[..n], now, gws[n].gwId);
    }
  }

  lemma {:induction false} NotReported(gws: seq<GwInfo>, now: nat, id: nat)
    requires !HasId(gws, id)
    ensures forall r :: r in LateReports(gws, now) ==> r.gwId != id
  {
    if gws != [] {
      IdInLast(gws, id);
      NotReported(gws[..|gws| - 1], now, id);
    }
  }

  /** A gateway with losses to spare that goes silent over a long tick: called tentative, and gone. */
  lemma DroppedWhileTentative()
    ensures var g := GwInfo(1, [], 100, 10, 3);
            Survivors([g], 200) == [] && LateReports([g], 200) == [Report(Tentative, 1)]
  {
    var g := GwInfo(1, [], 100, 10, 3);
    assert Renewed(g, 200).expiry == 110;
    assert [g][..0] == [];
  }

  /* A gateway that stays silent */

  /** The list after timeouts at these times, with no word from any gateway in between. */
  function Expired(gws: seq<GwInfo>, times: seq<nat>): seq<GwInfo>
    decreases |times|
  {
    if times == [] then gws else Expired(Survivors(gws, times[0]), times[1..])
  }

  /** What is reported at these timeouts. */
  function Told(gws: seq<GwInfo>, times: seq<nat>): seq<Report>
    decreases |times|
  {
    if times == [] then [] else LateReports(gws, times[0]) + Told(Survivors(gws, times[0]), times[1..])
  }

  /** The reports about one gateway. */
  function About(reports: seq<Report>, id: nat): seq<GwStatus> {
    if reports == [] then []
    else
      var last := reports[|reports| - 1];
      About(reports[..|reports| - 1], id) + if last.gwId == id then [last.status] else []
  }

  /** Each of the times lies in one advertise period, the first right after `expiry`. */
  predicate Timely(expiry: nat, duration: nat, times: seq<nat>)
    decreases |times|
  {
    times == [] || (expiry <= times[0] < expiry + duration && Timely(expiry + duration, duration, times[1..]))
  }

  function Repeat(status: GwStatus, n: nat): seq<GwStatus> {
    if n == 0 then [] else [status] + Repeat(status, n - 1)
  }

  lemma {:induction false} AboutConcat(a: seq<Report>, b: seq<Report>, id: nat)
    ensures About(a + b, id) == About(a, id) + About(b, id)
  {
    if b == [] {
      assert a + b == a;
    } else {
      var n := |b| - 1;
      AboutConcat(a, b[..n], id);
      assert (a + b)[..|a + b| - 1] == a + b[..n];
    }
  }

  lemma {:induction false} AboutNobody(reports: seq<Report>, id: nat)
    requires forall r :: r in reports ==> r.gwId != id
    ensures About(reports, id) == []
  {
    if reports != [] {
      AboutNobody(reports[..|reports| - 1], id);
    }
  }

  /** What one timeout says about a late gateway. */
  lemma {:induction false} AboutLate(gws: seq<GwInfo>, now: nat, i: nat)
    requires DistinctIds(gws) && i < |gws| && gws[i].expiry <= now
    ensures About(LateReports(gws, now), gws[i].gwId) == [if gws[i].advLosses == 0 then Removed else Tentative]
  {
    var n := |gws| - 1;
    var rest := LateReports(gws[..n], now);
    if i < n {
      AboutLate(gws[..n], now, i);
      if gws[n].expiry <= now {
        AboutConcat(rest, LateReports(gws, now)[|rest|..], gws[i].gwId);
      }
    } else {
      NotReported(gws[..n], now, gws[n].gwId);
      AboutNobody(rest, gws[n].gwId);
    }
  }

  /** A late gateway with losses to spare stays with one loss less and one more period. */
  lemma {:induction false} LateStays(gws: seq<GwInfo>, now: nat, i: nat) returns (j: nat)
    requires i < |gws| && gws[i].advLosses != 0 && gws[i].expiry <= now < gws[i].expiry + gws[i].duration
    ensures var g := gws[i];
            && j < |Survivors(gws, now)|
            && Survivors(gws, now)[j] == g.(advLosses := g.advLosses - 1, expiry := g.expiry + g.duration)
  {
    var n := |gws| - 1;
    if i < n {
      j := LateStays(gws[..n], now, i);
    } else {
      j := |Survivors(gws[..n], now)|;
    }
  }

  /** A gateway that stays silent is reported tentative once for each loss to spare, then removed, and is gone. */
  lemma {:induction false} SilentGatewayRemoved(gws: seq<GwInfo>, i: nat, times: seq<nat>)
    requires DistinctIds(gws) && i < |gws| && |times| == gws[i].advLosses + 1
    requires Timely(gws[i].expiry, gws[i].duration, times)
    ensures About(Told(gws, times), gws[i].gwId) == Repeat(Tentative, gws[i].advLosses) + [Removed]
    ensures !HasId(Expired(gws, times), gws[i].gwId)
    decreases |times|
  {
    var id, next := gws[i].gwId, Survivors(gws, times[0]);
    AboutLate(gws, times[0], i);
    AboutConcat(LateReports(gws, times[0]), Told(next, times[1..]), id);
    WhoSurvives(gws, times[0], i);
    if gws[i].advLosses == 0 {
      assert times[1..] == [];
    } else {
      SurvivorsValid(gws, times[0]);
      var j := LateStays(gws, times[0], i);
      SilentGatewayRemoved(next, j, times[1..]);
    }
  }

  /* Discovery */

  class Discovery {
    const maxSize: nat
    const maxAddr: nat
    var timestamp: nat
    var gwInfos: seq<GwInfo>
    var timer: T.Slot
    var reports: seq<Report>

    ghost predicate Coupled()
      reads this
    {
      DistinctIds(gwInfos) && AllAhead(gwInfos, timestamp) && Watches(timer, gwInfos, timestamp)
    }

    constructor (maxSize: nat, maxAddr: nat)
      ensures Coupled() && gwInfos == [] && reports == []
    {
      this.maxSize, this.maxAddr := maxSize, maxAddr;
      timestamp, gwInfos, timer, reports := 0, [], STOPPED, [];
    }

    /** The index of the gateway with this id, the length of the list if it is not known. */
    method Find(gwId: nat) returns (i: nat)
      ensures i < |gwInfos| ==> gwInfos[i].gwId == gwId
      ensures i >= |gwInfos| ==> i == |gwInfos| && !HasId(gwInfos, gwId)
    {
      i := 0;
      while i < |gwInfos| && gwInfos[i].gwId != gwId
        invariant i <= |gwInfos| && forall j :: 0 <= j < i ==> gwInfos[j].gwId != gwId
      {
        i := i + 1;
      }
    }

    /** Leaves a stopped timer stopped when no gateway is known. */
    method MonitorGatewayExpiry()
      requires DistinctIds(gwInfos) && AllAhead(gwInfos, timestamp)
      requires timer.isAllocated && !timer.suspended && (gwInfos == [] ==> timer == STOPPED)
      modifies `timer
      ensures Coupled()
    {
      if gwInfos == [] {
        return;
      }
      var least: nat, i := gwInfos[0].expiry, 1;
      while i < |gwInfos|
        invariant 1 <= i <= |gwInfos| && IsLeast(gwInfos[..i], least)
        modifies {}
      {
        LeastStep(gwInfos, i, least);
        if gwInfos[i].expiry < least {
          least := gwInfos[i].expiry;
        }
        i := i + 1;
      }
      assert gwInfos[..i] == gwInfos;
      ghost var k :| 0 <= k < |gwInfos| && gwInfos[k].expiry == least;
      assert timestamp < gwInfos[k].expiry;
      timer := timer.(timeoutMs := least - timestamp, cb := Some(EXPIRY_CB));
    }

    /** ADVERTISE.  The new expiry must lie ahead: the advertised duration or the retry period is positive. */
    method HandleAdvertise(gwId: nat, duration: nat, retryPeriod: nat, advLosses: nat)
      requires Coupled() && 0 < duration + retryPeriod
      modifies this
      ensures Coupled() && timestamp == old(timestamp)
      ensures var next := timestamp + duration + retryPeriod;
              if HasId(old(gwInfos), gwId) then
                exists i :: 0 <= i < |old(gwInfos)| && old(gwInfos)[i].gwId == gwId
                  && gwInfos == old(gwInfos)[i := old(gwInfos)[i].(expiry := next, duration := duration,
                                                                   advLosses := advLosses)]
                  && reports == old(reports) + [Report(Alive, gwId)]
              else if maxSize <= |old(gwInfos)| then gwInfos == old(gwInfos) && reports == old(reports)
              else gwInfos == old(gwInfos) + [GwInfo(gwId, [], next, duration, advLosses)]
                   && reports == old(reports) + [Report(AddedByGateway, gwId)]
    {
      timer := T.Cancelled(timer);
      var next := timestamp + duration + retryPeriod;
      var i := Find(gwId);
      if i < |gwInfos| {
        gwInfos := gwInfos[i := gwInfos[i].(expiry := next, duration := duration, advLosses := advLosses)];
        reports := reports + [Report(Alive, gwId)];
      } else if |gwInfos| < maxSize {
        gwInfos := gwInfos + [GwInfo(gwId, [], next, duration, advLosses)];
        reports := reports + [Report(AddedByGateway, gwId)];
      }
      MonitorGatewayExpiry();
    }

    /** GWINFO, by the gateway itself (no address) or by another client on its behalf. */
    method HandleGwinfo(gwId: nat, addr: seq<nat>, advTimeout: nat, retryPeriod: nat, advLosses: nat)
      requires Coupled() && 0 < advTimeout + retryPeriod
      modifies this
      ensures Coupled() && timestamp == old(timestamp)
      ensures if HasId(old(gwInfos), gwId) then
                && timer == old(timer) && |gwInfos| == |old(gwInfos)|
                && forall i :: 0 <= i < |gwInfos| ==>
                     var was := old(gwInfos)[i];
                     gwInfos[i] ==
                     if was.gwId != gwId then was
                     else if addr == [] then was.(advLosses := advLosses)
                     else if |addr| <= maxAddr then was.(addr := addr) else was
              else if maxSize <= |old(gwInfos)| then
                gwInfos == old(gwInfos) && timer == old(timer) && reports == old(reports)
              else var next := timestamp + advTimeout + retryPeriod;
                   && gwInfos == old(gwInfos) + [GwInfo(gwId, addr, next, advTimeout, advLosses)]
                   && reports == old(reports) + [Report(if addr == [] then AddedByGateway else AddedByClient, gwId)]
      ensures HasId(old(gwInfos), gwId) ==>
                reports == old(reports) + if addr == [] then [Report(Alive, gwId)]
                                          else if gwInfos != old(gwInfos) then [Report(UpdatedByClient, gwId)] else []
    {
      var i := Find(gwId);
      if i < |gwInfos| {
        if addr == [] {
          gwInfos := gwInfos[i := gwInfos[i].(advLosses := advLosses)];
          SameExpiry(old(gwInfos), gwInfos, timer, timestamp);
          reports := reports + [Report(Alive, gwId)];
          return;
        }
        if maxAddr < |addr| {
          return;
        }
        if addr == gwInfos[i].addr {
          return;
        }
        gwInfos := gwInfos[i := gwInfos[i].(addr := addr)];
        SameExpiry(old(gwInfos), gwInfos, timer, timestamp);
        reports := reports + [Report(UpdatedByClient, gwId)];
        return;
      }
      if maxSize <= |gwInfos| {
        return;
      }
      gwInfos := gwInfos + [GwInfo(gwId, addr, timestamp + advTimeout + retryPeriod, advTimeout, advLosses)];
      MonitorGatewayExpiry();
      reports := reports + [Report(if addr == [] then AddedByGateway else AddedByClient, gwId)];
    }

    /** The discovery timer ran out and was cancelled by the tick. */
    method GwExpiryTimeout()
      requires DistinctIds(gwInfos) && timer == STOPPED
      modifies `gwInfos, `timer, `reports
      ensures Coupled()
      ensures gwInfos == Survivors(old(gwInfos), timestamp)
      ensures reports == old(reports) + LateReports(old(gwInfos), timestamp)
    {
      hide Survivors, LateReports, Renewed;
      var renewed := Renew();
      var kept := RemoveExpired(renewed, gwInfos);
      SurvivorsValid(gwInfos, timestamp);
      gwInfos := kept;
      MonitorGatewayExpiry();
    }

    /** The late gateways are reported and, if they have losses to spare, get another period. */
    method Renew() returns (renewed: seq<GwInfo>)
      modifies `reports
      ensures |renewed| == |gwInfos| && forall j :: 0 <= j < |gwInfos| ==> renewed[j] == Renewed(gwInfos[j], timestamp)
      ensures reports == old(reports) + LateReports(gwInfos, timestamp)
    {
      renewed := gwInfos;
      var i := 0;
      while i < |renewed|
        invariant i <= |renewed| == |gwInfos|
        invariant forall j :: 0 <= j < i ==> renewed[j] == Renewed(gwInfos[j], timestamp)
        invariant forall j :: i <= j < |renewed| ==> renewed[j] == gwInfos[j]
        invariant reports == old(reports) + LateReports(gwInfos[..i], timestamp)
      {
        assert gwInfos[..i + 1][..i] == gwInfos[..i];
        if renewed[i].expiry <= timestamp {
          if renewed[i].advLosses == 0 {
            reports := reports + [Report(Removed, renewed[i].gwId)];
          } else {
            renewed := renewed[i := renewed[i].(advLosses := renewed[i].advLosses - 1,
                                                expiry := renewed[i].expiry + renewed[i].duration)];
            reports := reports + [Report(Tentative, renewed[i].gwId)];
          }
        }
        i := i + 1;
      }
      assert gwInfos[..i] == gwInfos;
    }

    method RemoveExpired(renewed: seq<GwInfo>, ghost gws: seq<GwInfo>) returns (kept: seq<GwInfo>)
      requires |renewed| == |gws| && forall j :: 0 <= j < |gws| ==> renewed[j] == Renewed(gws[j], timestamp)
      ensures kept == Survivors(gws, timestamp)
    {
      kept := [];
      var i := 0;
      while i < |renewed|
        invariant i <= |renewed| && kept == Survivors(gws[..i], timestamp)
      {
        assert gws[..i + 1][..i] == gws[..i];
        if timestamp < renewed[i].expiry {
          kept := kept + [renewed[i]];
        }
        i := i + 1;
      }
      assert gws[..i] == gws;
    }

    /** `ms` milliseconds pass, reported by the application or asked for on API entry. */
    method Tick(ms: nat)
      requires Coupled()
      modifies this
      ensures Coupled() && timestamp == old(timestamp) + ms
      ensures gwInfos == Survivors(old(gwInfos), timestamp)
      ensures reports == old(reports) + LateReports(old(gwInfos), timestamp)
    {
      timestamp := timestamp + ms;
      var expires := T.Expires(timer, ms);
      timer := T.TickSlot(timer, ms);
      if expires {
        GwExpiryTimeout();
      } else {
        NobodyLate(gwInfos, timestamp);
        assert reports + [] == reports;
      }
    }
  }

  lemma LeastStep(gws: seq<GwInfo>, i: nat, least: nat)
    requires i < |gws| && IsLeast(gws[..i], least)
    ensures IsLeast(gws[..i + 1], if gws[i].expiry < least then gws[i].expiry else least)
  {
    var k :| 0 <= k < i && gws[..i][k].expiry == least;
    assert gws[..i + 1][k].expiry == least && gws[..i + 1][i] == gws[i];
    assert forall j :: 0 <= j < i ==> gws[..i + 1][j] == gws[..i][j];
  }

  /** Changing other fields than the expiry leaves the timer right. */
  lemma SameExpiry(gws: seq<GwInfo>, gws': seq<GwInfo>, timer: T.Slot, now: nat)
    requires |gws'| == |gws| && forall i :: 0 <= i < |gws| ==> gws'[i].expiry == gws[i].expiry
    requires Watches(timer, gws, now)
    ensures Watches(timer, gws', now)
  {
    if gws != [] {
      var i :| 0 <= i < |gws| && gws[i].expiry == now + timer.timeoutMs;
      assert gws'[i].expiry == now + timer.timeoutMs;
    }
  }

  lemma {:induction false} NobodyLate(gws: seq<GwInfo>, now: nat)
    requires AllAhead(gws, now)
    ensures Survivors(gws, now) == gws && LateReports(gws, now) == []
  {
    if gws != [] {
      var n := |gws| - 1;
      var front := gws[..n];
      assert forall i :: 0 <= i < n ==> front[i] == gws[i];
      NobodyLate(front, now);
      assert now < gws[n].expiry && Renewed(gws[n], now) == gws[n];
      assert gws == front + [gws[n]];
    }
  }
}
