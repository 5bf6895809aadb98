/**
 * The client's registered-topic caches: sorted vectors that stand for maps, with a size limit.
 *
 * The incoming cache is sorted by topic id and gives the topic; the outgoing one is sorted by topic and
 * gives the id.  Both are `Cache` with their own key order.
 */
module TopicCache {
  import opened Protocol

  datatype Entry<K, V> = Entry(timestamp: nat, key: K, value: V)

  /* Key orders */

  ghost predicate StrictOrder<K(!new)>(less: (K, K) -> bool) {
    && (forall x :: !less(x, x))
    && (forall x, y, z :: less(x, y) && less(y, z) ==> less(x, z))
    && (forall x, y :: less(x, y) || x == y || less(y, x))
  }

  predicate IdLess(x: nat, y: nat) {
    x < y
  }

  predicate TopicLess(x: string, y: string) {
    y != [] && (x == [] || x[0] < y[0] || (x[0] == y[0] && TopicLess(x[1..], y[1..])))
  }

  lemma {:induction false} TopicLessIrreflexive(x: string)
    ensures !TopicLess(x, x)
  {
    if x != [] {
      TopicLessIrreflexive(x[1..]);
    }
  }

  lemma {:induction false} TopicLessTransitive(x: string, y: string, z: string)
    requires TopicLess(x, y) && TopicLess(y, z)
    ensures TopicLess(x, z)
  {
    if x != [] && x[0] == y[0] == z[0] {
      TopicLessTransitive(x[1..], y[1..], z[1..]);
    }
  }

  lemma {:induction false} TopicLessTotal(x: string, y: string)
    ensures TopicLess(x, y) || x == y || TopicLess(y, x)
  {
    if x != [] && y != [] && x[0] == y[0] {
      TopicLessTotal(x[1..], y[1..]);
      assert x == [x[0]] + x[1..] && y == [y[0]] + y[1..];
    }
  }

  lemma KeyOrders()
    ensures StrictOrder(IdLess) && StrictOrder(TopicLess)
  {
    forall x ensures !TopicLess(x, x) {
      TopicLessIrreflexive(x);
    }
    forall x, y, z | TopicLess(x, y) && TopicLess(y, z) ensures TopicLess(x, z) {
      TopicLessTransitive(x, y, z);
    }
    forall x, y ensures TopicLess(x, y) || x == y || TopicLess(y, x) {
      TopicLessTotal(x, y);
    }
  }

  /* Sorted vectors */

  ghost predicate Sorted<K(!new), V>(less: (K, K) -> bool, s: seq<Entry<K, V>>) {
    forall i, j :: 0 <= i < j < |s| ==> less(s[i].key, s[j].key)
  }

  ghost predicate Has<K, V>(s: seq<Entry<K, V>>, k: K) {
    exists i :: 0 <= i < |s| && s[i].key == k
  }

  /** The value stored under a key: the vector as a map. */
  function Lookup<K(==), V>(s: seq<Entry<K, V>>, k: K): Option<V> {
    if s == [] then None else if s[0].key == k then Some(s[0].value) else Lookup(s[1..], k)
  }

  /** The first position whose key is not less than `k`. */
  function Pos<K, V>(less: (K, K) -> bool, s: seq<Entry<K, V>>, k: K): (p: nat)
    ensures p <= |s|
  {
    if s == [] || !less(s[0].key, k) then 0 else 1 + Pos(less, s[1..], k)
  }

  /** The first of the entries with the least timestamp. */
  function LeastRecent<K, V>(s: seq<Entry<K, V>>): (p: nat)
    requires s != []
    ensures p < |s|
  {
    if |s| == 1 then 0
    else
      var q := LeastRecent(s[..|s| - 1]);
      if s[|s| - 1].timestamp < s[q].timestamp then |s| - 1 else q
  }

  function Without<K, V>(s: seq<Entry<K, V>>, i: nat): seq<Entry<K, V>>
    requires i < |s|
  {
    s[..i] + s[i + 1..]
  }

  /** What storing a pair does to the vector. */
  function Stored<K(==), V>(less: (K, K) -> bool, s: seq<Entry<K, V>>, k: K, v: V, now: nat, limit: nat)
    : seq<Entry<K, V>>
    requires 0 < limit
  {
    var p := Pos(less, s, k);
    if p < |s| && s[p].key == k then s[p := Entry(now, k, v)]
    else
      var rest := if |s| < limit then s else Without(s, LeastRecent(s));
      var q := Pos(less, rest, k);
      rest[..q] + [Entry(now, k, v)] + rest[q..]
  }

  lemma {:induction false} PosFacts<K(!new), V>(less: (K, K) -> bool, s: seq<Entry<K, V>>, k: K)
    requires StrictOrder(less) && Sorted(less, s)
    ensures var p := Pos(less, s, k);
            && (forall i :: 0 <= i < p ==> less(s[i].key, k))
            && (forall i :: p <= i < |s| ==> !less(s[i].key, k))
            && (Has(s, k) <==> p < |s| && s[p].key == k)
  {
    if s != [] && less(s[0].key, k) {
      PosFacts(less, s[1..], k);
      assert forall i :: 1 <= i < |s| ==> s[i] == s[1..][i - 1];
    }
  }

  lemma {:induction false} LookupAt<K, V>(s: seq<Entry<K, V>>, k: K)
    ensures Lookup(s, k).Some? <==> Has(s, k)
    ensures Lookup(s, k).Some? ==> exists i :: 0 <= i < |s| && s[i].key == k && s[i].value == Lookup(s, k).value
  {
    if s != [] && s[0].key != k {
      LookupAt(s[1..], k);
      assert forall i :: 1 <= i < |s| ==> s[i] == s[1..][i - 1];
      if Has(s[1..], k) {
        var i :| 0 <= i < |s| - 1 && s[1..][i].key == k && s[1..][i].value == Lookup(s, k).value;
        assert s[i + 1].key == k;
      }
    }
  }

  /** In a sorted vector any entry with the key is the one. */
  lemma LookupIs<K(!new), V>(less: (K, K) -> bool, s: seq<Entry<K, V>>, i: nat)
    requires StrictOrder(less) && Sorted(less, s) && i < |s|
    ensures Lookup(s, s[i].key) == Some(s[i].value)
  {
    LookupAt(s, s[i].key);
    assert Has(s, s[i].key);
    var j :| 0 <= j < |s| && s[j].key == s[i].key && s[j].value == Lookup(s, s[i].key).value;
    assert i == j;
  }

  lemma {:induction false} LeastRecentLeast<K, V>(s: seq<Entry<K, V>>)
    requires s != []
    ensures forall i :: 0 <= i < |s| ==> s[LeastRecent(s)].timestamp <= s[i].timestamp
    ensures forall i :: 0 <= i < LeastRecent(s) ==> s[LeastRecent(s)].timestamp < s[i].timestamp
  {
    if |s| > 1 {
      LeastRecentLeast(s[..|s| - 1]);
    }
  }

  /* Erasing and inserting */

  /** Two sorted vectors with the same pairs at `k`. */
  lemma SameLookup<K(!new), V>(less: (K, K) -> bool, s: seq<Entry<K, V>>, t: seq<Entry<K, V>>, k: K)
    requires StrictOrder(less) && Sorted(less, s) && Sorted(less, t)
    requires forall i :: 0 <= i < |s| && s[i].key == k ==> s[i] in t
    requires forall i :: 0 <= i < |t| && t[i].key == k ==> t[i] in s
    ensures Lookup(s, k) == Lookup(t, k)
  {
    LookupAt(s, k);
    LookupAt(t, k);
    if Has(s, k) {
      var i :| 0 <= i < |s| && s[i].key == k;
      var j :| 0 <= j < |t| && t[j] == s[i];
      LookupIs(less, s, i);
      LookupIs(less, t, j);
    }
  }

  lemma EraseSorted<K(!new), V>(less: (K, K) -> bool, s: seq<Entry<K, V>>, i: nat)
    requires StrictOrder(less) && Sorted(less, s) && i < |s|
    ensures Sorted(less, Without(s, i)) && !Has(Without(s, i), s[i].key)
  {
    var t := Without(s, i);
    assert forall j :: 0 <= j < |t| ==> t[j] == s[if j < i then j else j + 1];
    forall j | 0 <= j < |t| ensures t[j].key != s[i].key {
      assert less(t[j].key, s[i].key) || less(s[i].key, t[j].key);
    }
  }

  lemma EraseLookup<K(!new), V>(less: (K, K) -> bool, s: seq<Entry<K, V>>, i: nat, k: K)
    requires StrictOrder(less) && Sorted(less, s) && i < |s| && k != s[i].key
    ensures Lookup(Without(s, i), k) == Lookup(s, k)
  {
    hide StrictOrder, Lookup;
    var t := Without(s, i);
    EraseSorted(less, s, i);
    forall j | 0 <= j < |s| && s[j].key == k ensures s[j] in t {
      assert s[j] == t[if j < i then j else j - 1];
    }
    SameLookup(less, s, t, k);
  }

  lemma Erases<K(!new), V>(less: (K, K) -> bool, s: seq<Entry<K, V>>, i: nat)
    requires StrictOrder(less) && Sorted(less, s) && i < |s|
    ensures Sorted(less, Without(s, i)) && !Has(Without(s, i), s[i].key)
    ensures forall k :: k != s[i].key ==> Lookup(Without(s, i), k) == Lookup(s, k)
  {
    EraseSorted(less, s, i);
    forall k | k != s[i].key ensures Lookup(Without(s, i), k) == Lookup(s, k) {
      EraseLookup(less, s, i, k);
    }
  }

  lemma InsertSorted<K(!new), V>(less: (K, K) -> bool, s: seq<Entry<K, V>>, e: Entry<K, V>)
    requires StrictOrder(less) && Sorted(less, s) && !Has(s, e.key)
    ensures var p := Pos(less, s, e.key);
            Sorted(less, s[..p] + [e] + s[p..])
  {
    var p := Pos(less, s, e.key);
    PosFacts(less, s, e.key);
    forall j | p <= j < |s| ensures less(e.key, s[j].key) {
      assert s[j].key != e.key;
    }
    var t := s[..p] + [e] + s[p..];
    forall i, j | 0 <= i < j < |t| ensures less(t[i].key, t[j].key) {
      assert t[i] == if i < p then s[i] else if i == p then e else s[i - 1];
      assert t[j] == if j < p then s[j] else if j == p then e else s[j - 1];
    }
  }

  lemma InsertLookup<K(!new), V>(less: (K, K) -> bool, s: seq<Entry<K, V>>, e: Entry<K, V>, k: K)
    requires StrictOrder(less) && Sorted(less, s) && !Has(s, e.key) && k != e.key
    ensures var p := Pos(less, s, e.key);
            Lookup(s[..p] + [e] + s[p..], k) == Lookup(s, k)
  {
    hide StrictOrder, Lookup, Pos;
    var p := Pos(less, s, e.key);
    var t := s[..p] + [e] + s[p..];
    InsertSorted(less, s, e);
    forall j | 0 <= j < |s| && s[j].key == k ensures s[j] in t {
      assert s[j] == t[if j < p then j else j + 1];
    }
    SameLookup(less, s, t, k);
  }

  lemma Inserts<K(!new), V>(less: (K, K) -> bool, s: seq<Entry<K, V>>, e: Entry<K, V>)
    requires StrictOrder(less) && Sorted(less, s) && !Has(s, e.key)
    ensures var p := Pos(less, s, e.key);
            var t := s[..p] + [e] + s[p..];
            && Sorted(less, t) && Lookup(t, e.key) == Some(e.value)
            && (forall k :: k != e.key ==> Lookup(t, k) == Lookup(s, k))
  {
    hide StrictOrder, Lookup, Pos, Sorted;
    var p := Pos(less, s, e.key);
    var t := s[..p] + [e] + s[p..];
    InsertSorted(less, s, e);
    LookupIs(less, t, p);
    forall k | k != e.key ensures Lookup(t, k) == Lookup(s, k) {
      InsertLookup(less, s, e, k);
    }
  }

  lemma Updates<K(!new), V>(less: (K, K) -> bool, s: seq<Entry<K, V>>, p: nat, e: Entry<K, V>)
    requires StrictOrder(less) && Sorted(less, s) && p < |s| && s[p].key == e.key
    ensures var t := s[p := e];
            && Sorted(less, t) && Lookup(t, e.key) == Some(e.value)
            && (forall k :: k != e.key ==> Lookup(t, k) == Lookup(s, k))
  {
    var t := s[p := e];
    LookupIs(less, t, p);
    forall k | k != e.key ensures Lookup(t, k) == Lookup(s, k) {
      forall j | 0 <= j < |s| && s[j].key == k ensures s[j] in t {
        assert t[j] == s[j];
      }
      SameLookup(less, s, t, k);
    }
  }

  /** `t` has the entry for `k` as of now, and otherwise only entries of `s` as they were. */
  ghost predicate Stamped<K, V>(s: seq<Entry<K, V>>, t: seq<Entry<K, V>>, k: K, v: V, now: nat) {
    && Entry(now, k, v) in t
    && forall i :: 0 <= i < |t| ==> t[i] == Entry(now, k, v) || (t[i].key != k && t[i] in s)
  }

  lemma StoreStamps<K(!new), V>(less: (K, K) -> bool, s: seq<Entry<K, V>>, k: K, v: V, now: nat, limit: nat)
    requires StrictOrder(less) && Sorted(less, s) && 0 < limit
    ensures Stamped(s, Stored(less, s, k, v, now, limit), k, v, now)
  {
    hide LeastRecent, Pos, Stored;
    var t, p, e := Stored(less, s, k, v, now, limit), Pos(less, s, k), Entry(now, k, v);
    PosFacts(less, s, k);
    if Has(s, k) {
      assert t == s[p := e] by { StoredOld(less, s, k, v, now, limit); }
      assert t[p] == e;
    } else {
      var rest := if |s| < limit then s else Without(s, LeastRecent(s));
      var q := Pos(less, rest, k);
      assert t == rest[..q] + [e] + rest[q..] by { StoredNew(less, s, k, v, now, limit); }
      assert t[q] == e;
      forall i | 0 <= i < |t| && i != q ensures t[i] in s && t[i].key != k {
        assert t[i] == rest[if i < q then i else i - 1];
      }
    }
  }

  lemma StoredOld<K, V>(less: (K, K) -> bool, s: seq<Entry<K, V>>, k: K, v: V, now: nat, limit: nat)
    requires 0 < limit && Pos(less, s, k) < |s| && s[Pos(less, s, k)].key == k
    ensures Stored(less, s, k, v, now, limit) == s[Pos(less, s, k) := Entry(now, k, v)]
  {
  }

  lemma StoredNew<K, V>(less: (K, K) -> bool, s: seq<Entry<K, V>>, k: K, v: V, now: nat, limit: nat)
    requires 0 < limit && !(Pos(less, s, k) < |s| && s[Pos(less, s, k)].key == k)
    ensures var rest := if |s| < limit then s else Without(s, LeastRecent(s));
            var q := Pos(less, rest, k);
            Stored(less, s, k, v, now, limit) == rest[..q] + [Entry(now, k, v)] + rest[q..]
  {
  }

  /**
   * Storing is a map update.  Every other key keeps its value, except that a new key in a full cache
   * costs one entry, of least timestamp.  The stored key is the most recent, all others keep their timestamp.
   */
  lemma StoreIsUpdate<K(!new), V>(less: (K, K) -> bool, s: seq<Entry<K, V>>, k: K, v: V, now: nat, limit: nat)
    requires StrictOrder(less) && Sorted(less, s) && 0 < limit
    ensures var t := Stored(less, s, k, v, now, limit);
            && Sorted(less, t) && Lookup(t, k) == Some(v)
            && if Has(s, k) || |s| < limit
               then forall x :: x != k ==> Lookup(t, x) == Lookup(s, x)
               else var drop := s[LeastRecent(s)];
                    && !Has(t, drop.key) && drop.key != k
                    && (forall i :: 0 <= i < |s| ==> drop.timestamp <= s[i].timestamp)
                    && (forall i :: 0 <= i < LeastRecent(s) ==> drop.timestamp < s[i].timestamp)
                    && (forall x :: x != k && x != drop.key ==> Lookup(t, x) == Lookup(s, x))
    ensures Stamped(s, Stored(less, s, k, v, now, limit), k, v, now)
    ensures |s| <= limit ==> |Stored(less, s, k, v, now, limit)| <= limit
  {
    hide Stamped;
    StoreStamps(less, s, k, v, now, limit);
    PosFacts(less, s, k);
    var p := Pos(less, s, k);
    if Has(s, k) {
      Updates(less, s, p, Entry(now, k, v));
    } else if |s| < limit {
      Inserts(less, s, Entry(now, k, v));
    } else {
      var i := LeastRecent(s);
      var rest := Without(s, i);
      LeastRecentLeast(s);
      Erases(less, s, i);
      assert s[i].key != k;
      LookupAt(s, k);
      LookupAt(rest, k);
      Inserts(less, rest, Entry(now, k, v));
      LookupAt(rest, s[i].key);
      LookupAt(Stored(less, s, k, v, now, limit), s[i].key);
    }
  }

  /* The cache */

  class Cache<K(==, !new), V(==)> {
    const less: (K, K) -> bool
    var entries: seq<Entry<K, V>>

    ghost predicate Valid()
      reads this
    {
      StrictOrder(less) && Sorted(less, entries)
    }

    constructor (less: (K, K) -> bool)
      requires StrictOrder(less)
      ensures Valid() && entries == [] && this.less == less
    {
      this.less, entries := less, [];
    }

    /** Binary search. */
    method LowerBound(k: K) returns (p: nat)
      requires Valid()
      ensures p == Pos(less, entries, k)
    {
      PosFacts(less, entries, k);
      var lo, hi := 0, |entries|;
      while lo < hi
        invariant 0 <= lo <= Pos(less, entries, k) <= hi <= |entries|
      {
        var mid := (lo + hi) / 2;
        if less(entries[mid].key, k) {
          lo := mid + 1;
        } else {
          hi := mid;
        }
      }
      return lo;
    }

    method MinElement() returns (p: nat)
      requires entries != []
      ensures p == LeastRecent(entries)
    {
      p := 0;
      var i := 1;
      while i < |entries|
        invariant 1 <= i <= |entries| && p == LeastRecent(entries[..i])
      {
        assert entries[..i + 1][..i] == entries[..i];
        if entries[i].timestamp < entries[p].timestamp {
          p := i;
        }
        i := i + 1;
      }
      assert entries[..i] == entries;
    }

    method RemoveLeastRecentlyUsedIfNeeded(limit: nat) returns (removed: bool)
      requires Valid() && 0 < limit
      modifies this
      ensures Valid() && (removed <==> limit <= |old(entries)|)
      ensures entries == if removed then Without(old(entries), LeastRecent(old(entries))) else old(entries)
    {
      if |entries| < limit {
        return false;
      }
      var p := MinElement();
      Erases(less, entries, p);
      entries := entries[..p] + entries[p + 1..];
      return true;
    }

    /** `storeInRegTopic` and `storeOutRegTopic`. */
    method Store(k: K, v: V, now: nat, limit: nat)
      requires Valid() && 0 < limit
      modifies this
      ensures Valid() && entries == Stored(less, old(entries), k, v, now, limit)
    {
      hide StrictOrder, Sorted, Lookup, Has, LeastRecent, Pos;
      StoreIsUpdate(less, entries, k, v, now, limit);
      var p := LowerBound(k);
      if p < |entries| && entries[p].key == k {
        entries := entries[p := Entry(now, k, v)];
        return;
      }
      var removed := RemoveLeastRecentlyUsedIfNeeded(limit);
      if removed {
        p := LowerBound(k);
      }
      entries := entries[..p] + [Entry(now, k, v)] + entries[p..];
    }

    /** The REGACK handler's own insertion into the outgoing cache: the same result. */
    method StoreOnRegack(k: K, v: V, now: nat, limit: nat)
      requires Valid() && 0 < limit
      modifies this
      ensures Valid() && entries == Stored(less, old(entries), k, v, now, limit)
    {
      hide StrictOrder, Sorted, Lookup, Has, LeastRecent, Pos;
      StoreIsUpdate(less, entries, k, v, now, limit);
      var p := LowerBound(k);
      if p < |entries| && entries[p].key == k {
        entries := entries[p := Entry(now, k, v)];
      } else {
        if limit <= |entries| {
          var drop := MinElement();
          Erases(less, entries, drop);
          entries := entries[..drop] + entries[drop + 1..];
          p := LowerBound(k);
        }
        entries := entries[..p] + [Entry(now, k, v)] + entries[p..];
      }
    }

    method Find(k: K) returns (v: Option<V>)
      requires Valid()
      ensures v == Lookup(entries, k)
    {
      PosFacts(less, entries, k);
      LookupAt(entries, k);
      var p := LowerBound(k);
      if p == |entries| || entries[p].key != k {
        return None;
      }
      LookupIs(less, entries, p);
      return Some(entries[p].value);
    }

    method RemoveKey(k: K) returns (found: bool)
      requires Valid()
      modifies this
      ensures Valid() && Lookup(entries, k) == None && (found <==> Has(old(entries), k))
      ensures forall x :: x != k ==> Lookup(entries, x) == Lookup(old(entries), x)
    {
      PosFacts(less, entries, k);
      LookupAt(entries, k);
      var p := LowerBound(k);
      if p == |entries| || entries[p].key != k {
        return false;
      }
      Erases(less, entries, p);
      LookupAt(Without(entries, p), k);
      entries := entries[..p] + entries[p + 1..];
      return true;
    }

    /** A search by value takes the first entry in key order. */
    method FindByValue(v: V) returns (k: Option<K>)
      requires Valid()
      ensures k.None? <==> forall i :: 0 <= i < |entries| ==> entries[i].value != v
      ensures k.Some? ==> Lookup(entries, k.value) == Some(v)
                          && forall i :: 0 <= i < |entries| && entries[i].value == v ==> !less(entries[i].key, k.value)
    {
      var i := 0;
      while i < |entries|
        invariant i <= |entries| && forall j :: 0 <= j < i ==> entries[j].value != v
      {
        if entries[i].value == v {
          LookupIs(less, entries, i);
          return Some(entries[i].key);
        }
        i := i + 1;
      }
      return None;
    }

    /** A rejected topic id takes every entry with that id. */
    method RemoveValue(v: V)
      requires Valid()
      modifies this
      ensures Valid()
      ensures forall k ::
                Lookup(entries, k) == if Lookup(old(entries), k) == Some(v) then None else Lookup(old(entries), k)
    {
      var kept: seq<Entry<K, V>>, i := [], 0;
      while i < |entries|
        invariant i <= |entries| && Sorted(less, kept)
        invariant forall j :: 0 <= j < |kept| ==> kept[j] in entries[..i] && kept[j].value != v
        invariant forall j :: 0 <= j < i && entries[j].value != v ==> entries[j] in kept
        modifies {}
      {
        if entries[i].value != v {
          assert forall j :: 0 <= j < |kept| ==> less(kept[j].key, entries[i].key);
          kept := kept + [entries[i]];
        }
        i := i + 1;
      }
      assert entries[..i] == entries;
      forall k ensures Lookup(kept, k) == if Lookup(entries, k) == Some(v) then None else Lookup(entries, k) {
        KeptLookup(less, entries, kept, v, k);
      }
      entries := kept;
    }
  }

  lemma KeptLookup<K(!new), V>(less: (K, K) -> bool, s: seq<Entry<K, V>>, kept: seq<Entry<K, V>>, v: V, k: K)
    requires StrictOrder(less) && Sorted(less, s) && Sorted(less, kept)
    requires forall j :: 0 <= j < |kept| ==> kept[j] in s && kept[j].value != v
    requires forall j :: 0 <= j < |s| && s[j].value != v ==> s[j] in kept
    ensures Lookup(kept, k) == if Lookup(s, k) == Some(v) then None else Lookup(s, k)
  {
    LookupAt(s, k);
    LookupAt(kept, k);
    if Has(kept, k) {
      var i :| 0 <= i < |kept| && kept[i].key == k;
      var j :| 0 <= j < |s| && s[j] == kept[i];
      LookupIs(less, kept, i);
      LookupIs(less, s, j);
    } else if Has(s, k) {
      var j :| 0 <= j < |s| && s[j].key == k;
      LookupIs(less, s, j);
      assert s[j] in kept ==> Has(kept, k);
    }
  }
}
