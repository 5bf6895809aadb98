/** The client's packet ids: a sorted list of the outstanding ones searched with wrap-around, and the ops that
    hold them. */
module PacketIds {
  import opened Protocol

  /** Usable ids are 1 to 0xfffe. */
  const MAX_ID: nat := 0xfffe

  ghost predicate ValidIds(ids: seq<nat>) {
    Increasing(ids) && forall i :: 0 <= i < |ids| ==> 1 <= ids[i] <= MAX_ID
  }

  /** First position whose id is not below `x`: `std::lower_bound`. */
  function LowerBound(ids: seq<nat>, x: nat): (k: nat)
    ensures k <= |ids| && (forall i :: 0 <= i < k ==> ids[i] < x) && (k < |ids| ==> x <= ids[k])
  {
    if ids == [] || x <= ids[0] then 0 else LowerBound(ids[1..], x) + 1
  }

  function Inserted(ids: seq<nat>, id: nat): seq<nat> {
    var k := LowerBound(ids, id);
    ids[..k] + [id] + ids[k..]
  }

  function Removed(ids: seq<nat>, id: nat): seq<nat>
    requires id in ids && LowerBound(ids, id) < |ids|
  {
    var k := LowerBound(ids, id);
    ids[..k] + ids[k + 1..]
  }

  lemma LowerBoundFinds(ids: seq<nat>, id: nat)
    requires Increasing(ids)
    ensures id in ids <==> LowerBound(ids, id) < |ids| && ids[LowerBound(ids, id)] == id
  {
    var k := LowerBound(ids, id);
    if id in ids {
      var i :| 0 <= i < |ids| && ids[i] == id;
      assert k <= i;
      assert ids[k] <= ids[i];
    }
  }

  lemma InsertedFacts(ids: seq<nat>, id: nat)
    requires ValidIds(ids) && id !in ids && 1 <= id <= MAX_ID
    ensures ValidIds(Inserted(ids, id))
    ensures forall x :: x in Inserted(ids, id) <==> x == id || x in ids
  {
    LowerBoundFinds(ids, id);
    var k := LowerBound(ids, id);
    InsertSorted(ids, k, id);
    assert ids[..k] + ids[k..] == ids;
    Members(ids[..k], id, ids[k..]);
  }

  lemma Members(a: seq<nat>, id: nat, b: seq<nat>)
    ensures forall x :: x in a + [id] + b <==> x == id || x in a + b
  {
  }

  lemma InsertSorted(ids: seq<nat>, k: nat, id: nat)
    requires ValidIds(ids) && k <= |ids| && 1 <= id <= MAX_ID
    requires (0 < k ==> ids[k - 1] < id) && (k < |ids| ==> id < ids[k])
    ensures ValidIds(ids[..k] + [id] + ids[k..])
  {
    assert forall i :: 0 <= i < k ==> ids[i] <= ids[k - 1];
    assert forall i :: k <= i < |ids| ==> ids[k] <= ids[i];
  }

  lemma RemovedFacts(ids: seq<nat>, id: nat)
    requires ValidIds(ids) && id in ids
    ensures LowerBound(ids, id) < |ids| && ValidIds(Removed(ids, id))
    ensures forall x :: x in Removed(ids, id) <==> x in ids && x != id
  {
    LowerBoundFinds(ids, id);
    var k := LowerBound(ids, id);
    RemoveSorted(ids, k);
    var a, b := ids[..k], ids[k + 1..];
    assert a + [id] + b == ids;
    Members(a, id, b);
    assert id !in a + b by {
      hide LowerBound;
      assert forall i :: 0 <= i < |b| ==> b[i] == ids[k + 1 + i];
      assert id !in b;
    }
  }

  lemma RemoveSorted(ids: seq<nat>, k: nat)
    requires ValidIds(ids) && k < |ids|
    ensures ValidIds(ids[..k] + ids[k + 1..])
  {
  }

  /* When a free id exists */

  /** In a sorted list the entry number `i` is at least `i + 1`, and leaves room for those after it. */
  lemma {:induction false} SortedBounds(ids: seq<nat>, i: nat)
    requires ValidIds(ids) && i < |ids|
    ensures i + 1 <= ids[i] <= MAX_ID - (|ids| - 1 - i)
  {
    SortedLow(ids, i);
    SortedHigh(ids, i);
  }

  lemma {:induction false} SortedLow(ids: seq<nat>, i: nat)
    requires ValidIds(ids) && i < |ids|
    ensures i + 1 <= ids[i]
  {
    if i > 0 {
      SortedLow(ids, i - 1);
      assert ids[i - 1] < ids[i];
    }
  }

  lemma {:induction false} SortedHigh(ids: seq<nat>, i: nat)
    requires ValidIds(ids) && i < |ids|
    ensures ids[i] <= MAX_ID - (|ids| - 1 - i)
    decreases |ids| - i
  {
    if i + 1 < |ids| {
      SortedHigh(ids, i + 1);
      assert ids[i] < ids[i + 1];
    }
  }

  ghost predicate Free(ids: seq<nat>, id: nat) {
    1 <= id <= MAX_ID && id !in ids
  }

  /** The first gap: the lists starts 1, 2, 3 up to it. */
  lemma {:induction false} FirstGap(ids: seq<nat>, i: nat) returns (f: nat)
    requires ValidIds(ids) && i <= |ids| < MAX_ID && forall j :: 0 <= j < i ==> ids[j] == j + 1
    ensures Free(ids, f)
    decreases |ids| - i
  {
    if i < |ids| && ids[i] == i + 1 {
      f := FirstGap(ids, i + 1);
    } else {
      f := i + 1;
      if i < |ids| {
        SortedLow(ids, i);
        assert forall j :: i < j < |ids| ==> ids[i] < ids[j];
      }
    }
  }

  /** The search can succeed exactly when fewer than 65534 ids are outstanding; the guard of the source, which
      refuses at 65535, never fires. */
  lemma FreeIdIff(ids: seq<nat>)
    requires ValidIds(ids)
    ensures |ids| <= MAX_ID
    ensures (exists f :: Free(ids, f)) <==> |ids| < MAX_ID
  {
    if ids != [] {
      SortedBounds(ids, 0);
    }
    if |ids| < MAX_ID {
      var f := FirstGap(ids, 0);
    } else {
      forall f | 1 <= f <= MAX_ID ensures f in ids {
        SortedBounds(ids, f - 1);
        assert ids[f - 1] == f;
      }
    }
  }

  /* The search */

  /** The 16 bit successor after the two excluded values are replaced by 1. */
  function Norm(n: nat): nat {
    if n == 0xffff || n == 0 then 1 else n
  }

  /** Steps from `a` forward to `b` around the circle of usable ids. */
  function Dist(a: nat, b: nat): int {
    if a <= b then b - a else b - a + MAX_ID
  }

  ghost predicate AllTaken(ids: seq<nat>, start: nat, upTo: nat) {
    forall c :: 1 <= c <= MAX_ID && Dist(start, c) < Dist(start, upTo) ==> c in ids
  }

  lemma NothingBefore(ids: seq<nat>, start: nat)
    requires 1 <= start <= MAX_ID
    ensures AllTaken(ids, start, start)
  {
  }

  /** One step of the search past a taken id. */
  lemma StepAround(ids: seq<nat>, start: nat, c: nat, unused: nat)
    requires 1 <= start <= MAX_ID && 1 <= c <= MAX_ID && c in ids && Free(ids, unused)
    requires Dist(start, c) + Dist(c, unused) == Dist(start, unused) && AllTaken(ids, start, c)
    ensures var n := Norm(c + 1);
            && 1 <= n <= MAX_ID && Dist(n, unused) == Dist(c, unused) - 1
            && Dist(start, n) + Dist(n, unused) == Dist(start, unused) && AllTaken(ids, start, n)
  {
    var n := Norm(c + 1);
    assert Dist(start, n) == Dist(start, c) + 1;
    forall d | 1 <= d <= MAX_ID && Dist(start, d) < Dist(start, n) ensures d in ids {
      if Dist(start, d) == Dist(start, c) {
        assert d == c;
      }
    }
  }

  /** `id` is the first free id at or after `start`, going around. */
  ghost predicate NextFit(ids: seq<nat>, start: nat, id: nat) {
    Free(ids, id) && AllTaken(ids, start, id)
  }

  class Pool {
    const maxSize: nat
    var outstanding: seq<nat>
    var last: nat

    ghost predicate Valid()
      reads this
    {
      ValidIds(outstanding) && last <= MAX_ID
    }

    constructor (maxSize: nat)
      ensures Valid() && outstanding == [] && last == 0 && this.maxSize == maxSize
    {
      this.maxSize := maxSize;
      outstanding, last := [], 0;
    }

    /** The source does not return when 65534 ids are outstanding and the storage would take more. */
    ghost predicate MayAlloc()
      reads this
    {
      MayAllocFrom(|outstanding|)
    }

    /** The same with `n` ids outstanding. */
    ghost predicate MayAllocFrom(n: int) {
      n < MAX_ID || maxSize <= n
    }

    /** The part of the search that looks at one candidate. */
    method TryInsert(id: nat) returns (done: bool)
      requires Valid()
      modifies `outstanding
      ensures done <==> id !in old(outstanding)
      ensures outstanding == if done then Inserted(old(outstanding), id) else old(outstanding)
    {
      if outstanding == [] || outstanding[|outstanding| - 1] < id {
        BackInsert(outstanding, id);
        outstanding := outstanding + [id];
        return true;
      }

      LowerBoundFinds(outstanding, id);
      var k := LowerBound(outstanding, id);
      if k == |outstanding| || outstanding[k] != id {
        outstanding := outstanding[..k] + [id] + outstanding[k..];
        return true;
      }
      return false;
    }

    method Alloc() returns (id: nat)
      requires Valid() && MayAlloc()
      modifies this
      ensures Valid()
      ensures id == 0 <==> maxSize <= old(|outstanding|)
      ensures id == 0 ==> outstanding == old(outstanding) && last == old(last)
      ensures id != 0 ==>
                && NextFit(old(outstanding), Norm(old(last) + 1), id)
                && outstanding == Inserted(old(outstanding), id) && last == id
    {
      hide Inserted, LowerBound, ValidIds, AllTaken;
      if maxSize <= |outstanding| || 0xffff <= |outstanding| {
        FreeIdIff(outstanding);
        return 0;
      }

      FreeIdIff(outstanding);
      ghost var unused :| Free(outstanding, unused);
      var next := last + 1;
      ghost var start := Norm(next);
      NothingBefore(outstanding, start);
      while true
        invariant 1 <= next <= 0xffff && outstanding == old(outstanding) && last == old(last)
        invariant Dist(start, Norm(next)) + Dist(Norm(next), unused) == Dist(start, unused)
        invariant AllTaken(outstanding, start, Norm(next))
        decreases Dist(Norm(next), unused)
      {
        next := Norm(next);
        var done := TryInsert(next);
        if done {
          break;
        }
        StepAround(outstanding, start, next, unused);
        next := next + 1;
      }
      InsertedFacts(old(outstanding), next);
      last := next;
      return last;
    }

    method Release(id: nat)
      requires Valid()
      modifies this
      ensures Valid() && last == old(last)
      ensures id in old(outstanding) ==>
                LowerBound(old(outstanding), id) < |old(outstanding)| && outstanding == Removed(old(outstanding), id)
      ensures id !in old(outstanding) ==> outstanding == old(outstanding)
    {
      if id == 0 {
        return;
      }
      LowerBoundFinds(outstanding, id);
      var k := LowerBound(outstanding, id);
      if k == |outstanding| || outstanding[k] != id {
        return;
      }
      RemovedFacts(outstanding, id);
      outstanding := outstanding[..k] + outstanding[k + 1..];
    }
  }

  lemma BackInsert(ids: seq<nat>, id: nat)
    requires Increasing(ids) && (ids == [] || ids[|ids| - 1] < id)
    ensures Inserted(ids, id) == ids + [id] && id !in ids
  {
    assert forall i :: 0 <= i < |ids| ==> ids[i] <= ids[|ids| - 1];
    assert LowerBound(ids, id) == |ids|;
  }

  /* Who holds the ids */

  /** The id fields of one op, 0 for none: a subscribe or unsubscribe op has one, a publish op two. */
  datatype Holding =
    | OneId(id: nat)
    | TwoIds(regId: nat, pubId: nat)

  function IdsOf(h: Holding): set<nat> {
    (if h.OneId? then {h.id} else {h.regId, h.pubId}) - {0}
  }

  ghost predicate Held(ops: map<nat, Holding>, id: nat) {
    exists o :: o in ops && id in IdsOf(ops[o])
  }

  /** The outstanding ids are the disjoint union of the ids of the live ops. */
  ghost predicate Conserved(ids: seq<nat>, ops: map<nat, Holding>) {
    && (forall id :: id in ids <==> Held(ops, id))
    && (forall o, p :: o in ops && p in ops && o != p ==> IdsOf(ops[o]) !! IdsOf(ops[p]))
    && (forall o :: o in ops && ops[o].TwoIds? && ops[o].regId != 0 ==> ops[o].regId != ops[o].pubId)
  }

  /** Giving op `o` the new id `id` in a free field. */
  lemma GiveId(ids: seq<nat>, ids': seq<nat>, ops: map<nat, Holding>, o: nat, id: nat, h: Holding)
    requires Conserved(ids, ops) && o in ops && id !in ids && id != 0
    requires forall x :: x in ids' <==> x == id || x in ids
    requires IdsOf(h) == IdsOf(ops[o]) + {id} && (h.TwoIds? && h.regId != 0 ==> h.regId != h.pubId)
    ensures Conserved(ids', ops[o := h])
  {
    var ops' := ops[o := h];
    assert !Held(ops, id);
    forall x ensures x in ids' <==> Held(ops', x) {
      if x == id {
        assert x in IdsOf(ops'[o]);
      } else if x in ids' {
        var p :| p in ops && x in IdsOf(ops[p]);
        assert x in IdsOf(ops'[p]);
      }
      if Held(ops', x) && x != id {
        var p :| p in ops' && x in IdsOf(ops'[p]);
        assert x in IdsOf(ops[p]);
      }
    }
  }

  /** Taking the id `id` from op `o`. */
  lemma TakeId(ids: seq<nat>, ids': seq<nat>, ops: map<nat, Holding>, o: nat, id: nat, h: Holding)
    requires Conserved(ids, ops) && o in ops && id in IdsOf(ops[o])
    requires forall x :: x in ids' <==> x in ids && x != id
    requires IdsOf(h) == IdsOf(ops[o]) - {id} && (h.TwoIds? && h.regId != 0 ==> h.regId != h.pubId)
    ensures Conserved(ids', ops[o := h])
  {
    var ops' := ops[o := h];
    forall x ensures x in ids' <==> Held(ops', x) {
      if x in ids' {
        var p :| p in ops && x in IdsOf(ops[p]);
        assert x in IdsOf(ops'[p]);
      }
      if Held(ops', x) {
        var p :| p in ops' && x in IdsOf(ops'[p]);
        assert x in IdsOf(ops[p]);
      }
    }
  }

  /** A new op without ids. */
  lemma AddNone(ids: seq<nat>, ops: map<nat, Holding>, o: nat, h: Holding)
    requires Conserved(ids, ops) && o !in ops && IdsOf(h) == {} && (h.TwoIds? ==> h.regId == 0)
    ensures Conserved(ids, ops[o := h])
  {
    var ops' := ops[o := h];
    forall x ensures x in ids <==> Held(ops', x) {
      if x in ids {
        var p :| p in ops && x in IdsOf(ops[p]);
        assert x in IdsOf(ops'[p]);
      }
      if Held(ops', x) {
        var p :| p in ops' && x in IdsOf(ops'[p]);
        assert x in IdsOf(ops[p]);
      }
    }
  }

  /** An op without ids goes. */
  lemma DropNone(ids: seq<nat>, ops: map<nat, Holding>, o: nat)
    requires Conserved(ids, ops) && o in ops && IdsOf(ops[o]) == {}
    ensures Conserved(ids, ops - {o})
  {
    var ops' := ops - {o};
    forall x ensures x in ids <==> Held(ops', x) {
      if x in ids {
        var p :| p in ops && x in IdsOf(ops[p]);
        assert p in ops' && x in IdsOf(ops'[p]);
      }
      if Held(ops', x) {
        var p :| p in ops' && x in IdsOf(ops'[p]);
        assert x in IdsOf(ops[p]);
      }
    }
  }

  function Field(h: Holding, registering: bool): nat {
    if h.OneId? then h.id else if registering then h.regId else h.pubId
  }

  function Ones(id: nat): nat {
    if id == 0 then 0 else 1
  }

  class IdOwners {
    const pool: Pool
    var ops: map<nat, Holding>

    ghost predicate Valid()
      reads this, pool
    {
      pool.Valid() && Conserved(pool.outstanding, ops)
    }

    constructor (maxSize: nat)
      ensures Valid() && fresh(pool) && ops == map[]
    {
      pool := new Pool(maxSize);
      ops := map[];
    }

    /** A new op holds no ids until it is sent. */
    method Prepare(o: nat, publish: bool)
      requires Valid() && o !in ops
      modifies this
      ensures Valid() && ops == old(ops)[o := if publish then TwoIds(0, 0) else OneId(0)]
    {
      ops := ops[o := if publish then TwoIds(0, 0) else OneId(0)];
      AddNone(pool.outstanding, old(ops), o, ops[o]);
    }

    /** One id field of op `o` is filled; it stays 0 when the storage is full. */
    method Fill(o: nat, registering: bool)
      requires Valid() && o in ops && pool.MayAlloc()
      requires Field(ops[o], registering) == 0
      modifies this, pool
      ensures Valid() && o in ops && ops == old(ops)[o := ops[o]] && ops[o].OneId? == old(ops[o].OneId?)
      ensures ops[o].TwoIds? && registering ==> ops[o].pubId == old(ops[o]).pubId
      ensures ops[o].TwoIds? && !registering ==> ops[o].regId == old(ops[o]).regId
      ensures if pool.maxSize <= old(|pool.outstanding|) then pool.outstanding == old(pool.outstanding)
              else |pool.outstanding| == old(|pool.outstanding|) + 1
      ensures Field(ops[o], registering) != 0 <==> old(|pool.outstanding|) < pool.maxSize
    {
      hide Conserved, ValidIds, Inserted;
      var id := pool.Alloc();
      var h := if ops[o].OneId? then OneId(id)
               else if registering then ops[o].(regId := id) else ops[o].(pubId := id);
      if id == 0 {
        assert ops[o := h] == ops;
      } else {
        Inserts(old(pool.outstanding), id);
        NotHeld(old(pool.outstanding), ops, o, id);
        GiveId(old(pool.outstanding), pool.outstanding, ops, o, id, h);
      }
      ops := ops[o := h];
    }

    /** One id field of op `o` is given back. */
    method Drop(o: nat, registering: bool)
      requires Valid() && o in ops
      modifies this, pool
      ensures Valid()
      ensures |pool.outstanding| == old(|pool.outstanding|) - Ones(Field(old(ops[o]), registering))
      ensures ops == old(ops)[o := if old(ops[o]).OneId? then OneId(0)
                                   else if registering then old(ops[o]).(regId := 0) else old(ops[o]).(pubId := 0)]
    {
      hide Conserved, ValidIds, Removed;
      var id := Field(ops[o], registering);
      var h := if ops[o].OneId? then OneId(0) else if registering then ops[o].(regId := 0) else ops[o].(pubId := 0);
      if id != 0 {
        HolderOutstanding(pool.outstanding, ops, o, id);
        Removes(pool.outstanding, id);
      }
      pool.Release(id);
      if id == 0 {
        assert ops[o := h] == ops;
        ZeroFree(old(pool.outstanding));
      } else {
        TakeId(old(pool.outstanding), pool.outstanding, ops, o, id, h);
      }
      ops := ops[o := h];
    }

    /** `send` of a subscribe or unsubscribe op, called once. */
    method SendOne(o: nat)
      requires Valid() && o in ops && ops[o] == OneId(0) && pool.MayAlloc()
      modifies this, pool
      ensures Valid() && o in ops && ops == old(ops)[o := ops[o]] && ops[o].OneId?
      ensures ops[o].id != 0 <==> old(|pool.outstanding|) < pool.maxSize
    {
      hide Conserved, ValidIds;
      Fill(o, false);
    }

    /** `allocPacketIdsInternal` of a publish op. */
    method SendTwo(o: nat, registering: bool, acknowledged: bool)
      requires Valid() && o in ops && ops[o] == TwoIds(0, 0)
      requires pool.MayAllocFrom(|pool.outstanding|)
      requires registering && acknowledged && |pool.outstanding| < pool.maxSize ==>
                 pool.MayAllocFrom(|pool.outstanding| + 1)
      modifies this, pool
      ensures Valid() && o in ops && ops == old(ops)[o := ops[o]] && ops[o].TwoIds?
      ensures ops[o].regId != 0 <==> registering && old(|pool.outstanding|) < pool.maxSize
      ensures ops[o].pubId != 0 <==>
                acknowledged && old(|pool.outstanding|) + (if registering then 1 else 0) < pool.maxSize
    {
      hide Conserved, ValidIds;
      if registering {
        Fill(o, true);
      }
      if acknowledged {
        Fill(o, false);
      }
    }

    /** A rejected topic id: both ids are given back and new ones taken. */
    method Reallocate(o: nat, acknowledged: bool)
      requires Valid() && o in ops && ops[o].TwoIds? && (!acknowledged ==> ops[o].pubId == 0)
      requires var left := |pool.outstanding| - Ones(ops[o].regId) - Ones(ops[o].pubId);
               pool.MayAllocFrom(left) && (acknowledged && left < pool.maxSize ==> pool.MayAllocFrom(left + 1))
      modifies this, pool
      ensures Valid() && o in ops && ops == old(ops)[o := ops[o]] && ops[o].TwoIds?
      ensures var left := old(|pool.outstanding| - Ones(ops[o].regId) - Ones(ops[o].pubId));
              && (ops[o].regId != 0 <==> left < pool.maxSize)
              && (ops[o].pubId != 0 <==> acknowledged && left + 1 < pool.maxSize)
    {
      hide Conserved, ValidIds;
      Drop(o, true);
      Drop(o, false);
      SendTwo(o, true, acknowledged);
    }

    /** The destructor of an op. */
    method Destroy(o: nat)
      requires Valid() && o in ops
      modifies this, pool
      ensures Valid() && ops == old(ops) - {o}
    {
      hide Conserved, ValidIds;
      if ops[o].OneId? {
        Drop(o, false);
      } else {
        Drop(o, true);
        Drop(o, false);
      }
      DropNone(pool.outstanding, ops, o);
      ops := ops - {o};
    }
  }

  lemma Inserts(ids: seq<nat>, id: nat)
    requires ValidIds(ids) && Free(ids, id)
    ensures forall x :: x in Inserted(ids, id) <==> x == id || x in ids
    ensures |Inserted(ids, id)| == |ids| + 1
  {
    InsertedFacts(ids, id);
  }

  lemma Removes(ids: seq<nat>, id: nat)
    requires ValidIds(ids) && id in ids
    ensures LowerBound(ids, id) < |ids| && |Removed(ids, id)| == |ids| - 1
    ensures forall x :: x in Removed(ids, id) <==> x in ids && x != id
  {
    RemovedFacts(ids, id);
  }

  lemma ZeroFree(ids: seq<nat>)
    requires ValidIds(ids)
    ensures 0 !in ids
  {
  }

  lemma HolderOutstanding(ids: seq<nat>, ops: map<nat, Holding>, o: nat, id: nat)
    requires Conserved(ids, ops) && o in ops && id in IdsOf(ops[o])
    ensures id in ids && (ops[o].TwoIds? ==> ops[o].regId == 0 || ops[o].regId != ops[o].pubId)
  {
    assert Held(ops, id);
  }

  lemma NotHeld(ids: seq<nat>, ops: map<nat, Holding>, o: nat, id: nat)
    requires Conserved(ids, ops) && o in ops && id !in ids
    ensures id !in IdsOf(ops[o])
    ensures ops[o].TwoIds? && ops[o].regId != 0 ==> ops[o].regId != ops[o].pubId
  {
    assert !Held(ops, id);
  }
}
