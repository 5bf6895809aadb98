/**
 * The client's operation lists: one SUBSCRIBE or UNSUBSCRIBE transaction and one PUBLISH transaction
 * at a time.
 *
 * `ops` is the list of all operations in the order they were prepared; a completed operation leaves a
 * null entry until the outermost API call ends.  `atOnce` says of an operation whether sending it when
 * it is resumed completes it within the call (the send fails, or it is a QoS 0 PUBLISH).  An operation
 * is resumed at most once in its life, so a fixed answer per operation covers every run.
 */
module OpQueue {
  import opened Protocol

  datatype Kind = Subscribe | Unsubscribe | Publish | Other

  datatype Op = Op(kind: Kind, serial: nat)

  type Entry = Option<Op>

  datatype ErrorCode = Success | NotConnected | Disconnecting | RetryLater | PreparationLocked | OutOfMemory

  /* Lists of operations */

  function Live(ops: seq<Entry>): seq<Op> {
    if ops == [] then [] else if ops[0].Some? then [ops[0].value] + Live(ops[1..]) else Live(ops[1..])
  }

  function Select(s: seq<Op>, kinds: set<Kind>): seq<Op> {
    if s == [] then [] else if s[0].kind in kinds then [s[0]] + Select(s[1..], kinds) else Select(s[1..], kinds)
  }

  function Minus(s: seq<Op>, gone: seq<Op>): seq<Op> {
    if s == [] then [] else if s[0] in gone then Minus(s[1..], gone) else [s[0]] + Minus(s[1..], gone)
  }

  ghost predicate Distinct(s: seq<Op>) {
    forall i, j :: 0 <= i < j < |s| ==> s[i] != s[j]
  }

  lemma {:induction false} LiveConcat(a: seq<Entry>, b: seq<Entry>)
    ensures Live(a + b) == Live(a) + Live(b)
  {
    if a == [] {
      assert a + b == b;
    } else {
      assert (a + b)[0] == a[0] && (a + b)[1..] == a[1..] + b;
      LiveConcat(a[1..], b);
    }
  }

  lemma {:induction false} SelectConcat(a: seq<Op>, b: seq<Op>, kinds: set<Kind>)
    ensures Select(a + b, kinds) == Select(a, kinds) + Select(b, kinds)
  {
    if a == [] {
      assert a + b == b;
    } else {
      assert (a + b)[0] == a[0] && (a + b)[1..] == a[1..] + b;
      SelectConcat(a[1..], b, kinds);
    }
  }

  lemma {:induction false} SelectMembers(s: seq<Op>, kinds: set<Kind>, o: Op)
    ensures o in Select(s, kinds) <==> o in s && o.kind in kinds
  {
    if s != [] {
      SelectMembers(s[1..], kinds, o);
    }
  }

  lemma {:induction false} SelectDistinct(s: seq<Op>, kinds: set<Kind>)
    requires Distinct(s)
    ensures Distinct(Select(s, kinds))
  {
    if s != [] {
      SelectDistinct(s[1..], kinds);
      SelectMembers(s[1..], kinds, s[0]);
    }
  }

  lemma {:induction false} MinusMembers(s: seq<Op>, gone: seq<Op>, o: Op)
    ensures o in Minus(s, gone) <==> o in s && o !in gone
  {
    if s != [] {
      MinusMembers(s[1..], gone, o);
    }
  }

  lemma {:induction false} MinusDistinct(s: seq<Op>, gone: seq<Op>)
    requires Distinct(s)
    ensures Distinct(Minus(s, gone))
  {
    if s != [] {
      MinusDistinct(s[1..], gone);
      MinusMembers(s[1..], gone, s[0]);
    }
  }

  lemma {:induction false} SelectMinus(s: seq<Op>, kinds: set<Kind>, gone: seq<Op>)
    ensures Select(Minus(s, gone), kinds) == Minus(Select(s, kinds), gone)
  {
    if s != [] {
      SelectMinus(s[1..], kinds, gone);
      if s[0] !in gone {
        assert Minus(s, gone)[1..] == Minus(s[1..], gone);
      }
      if s[0].kind in kinds {
        assert Select(s, kinds)[1..] == Select(s[1..], kinds);
      }
    }
  }

  lemma {:induction false} MinusNone(s: seq<Op>, gone: seq<Op>)
    requires forall o :: o in s ==> o !in gone
    ensures Minus(s, gone) == s
  {
    if s != [] {
      MinusNone(s[1..], gone);
    }
  }

  lemma {:induction false} MinusTwice(s: seq<Op>, first: seq<Op>, second: seq<Op>)
    ensures Minus(Minus(s, first), second) == Minus(s, first + second)
  {
    if s != [] {
      MinusTwice(s[1..], first, second);
      if s[0] !in first {
        assert Minus(s, first)[1..] == Minus(s[1..], first);
      }
    }
  }

  lemma {:induction false} MinusShrinks(s: seq<Op>, gone: seq<Op>)
    ensures |Minus(s, gone)| <= |s|
    ensures (exists o :: o in s && o in gone) ==> |Minus(s, gone)| < |s|
  {
    if s != [] {
      MinusShrinks(s[1..], gone);
    }
  }

  /** Erasing the one occurrence of `s[i]`. */
  lemma {:induction false} EraseIsMinus(s: seq<Op>, i: nat)
    requires i < |s| && Distinct(s)
    ensures s[..i] + s[i + 1..] == Minus(s, [s[i]])
  {
    if i == 0 {
      MinusNone(s[1..], [s[0]]);
    } else {
      EraseIsMinus(s[1..], i - 1);
      assert s[..i] + s[i + 1..] == [s[0]] + (s[1..][..i - 1] + s[1..][i..]);
    }
  }

  /** Setting an entry to null takes its operation from the live ones. */
  lemma ClearIsMinus(ops: seq<Entry>, i: nat)
    requires i < |ops| && ops[i].Some? && Distinct(Live(ops))
    ensures Live(ops[i := None]) == Minus(Live(ops), [ops[i].value])
  {
    LiveSplit(ops, i);
    LiveSplit(ops[i := None], i);
    assert ops[i := None][..i] == ops[..i] && ops[i := None][i + 1..] == ops[i + 1..];
    var before, after := Live(ops[..i]), Live(ops[i + 1..]);
    EraseIsMinus(before + [ops[i].value] + after, |before|);
  }

  lemma {:induction false} LiveSplit(ops: seq<Entry>, i: nat)
    requires i < |ops|
    ensures Live(ops) == Live(ops[..i]) + (if ops[i].Some? then [ops[i].value] else []) + Live(ops[i + 1..])
  {
    if i != 0 {
      LiveSplit(ops[1..], i - 1);
      assert ops[..i][1..] == ops[1..][..i - 1];
    }
  }

  lemma {:induction false} LiveMembers(ops: seq<Entry>, o: Op)
    ensures o in Live(ops) <==> Some(o) in ops
  {
    if ops != [] {
      LiveMembers(ops[1..], o);
    }
  }

  /* The two queues */

  const SUB_UNSUB: set<Kind> := {Subscribe, Unsubscribe}

  /** The operations that share one transaction slot with `k`. */
  function Peers(k: Kind): set<Kind> {
    if k in SUB_UNSUB then SUB_UNSUB else {k}
  }

  /** Everything behind the head of a queue. */
  function Waiting(queue: seq<Op>): set<Op> {
    if queue == [] then {} else set o | o in queue[1..]
  }

  /** The operations at the front of a queue that complete as soon as they are resumed. */
  function AtOnce(queue: seq<Op>, atOnce: Op -> bool): seq<Op> {
    if queue != [] && atOnce(queue[0]) then [queue[0]] + AtOnce(queue[1..], atOnce) else []
  }

  /** Everything that completes when `o` does, in order of completion; `Other` operations have no queue. */
  function Finished(live: seq<Op>, o: Op, atOnce: Op -> bool): seq<Op> {
    var queue := Select(live, Peers(o.kind));
    if o.kind != Other && queue != [] && queue[0] == o then [o] + AtOnce(queue[1..], atOnce) else [o]
  }

  /** What the head's completion leaves: the queue from the first operation that does not complete at once. */
  lemma HeadFinished(live: seq<Op>, o: Op, atOnce: Op -> bool)
    requires Distinct(live) && o.kind != Other
    requires Select(live, Peers(o.kind)) != [] && Select(live, Peers(o.kind))[0] == o
    ensures var queue := Select(live, Peers(o.kind));
            var n := |Finished(live, o, atOnce)|;
            && n <= |queue| && Finished(live, o, atOnce) == queue[..n]
            && Select(Minus(live, queue[..n]), Peers(o.kind)) == queue[n..]
            && (n < |queue| ==> !atOnce(queue[n]))
            && (forall i :: 1 <= i < n ==> atOnce(queue[i]))
  {
    var queue := Select(live, Peers(o.kind));
    SelectMembers(live, Peers(o.kind), o);
    AtOncePrefix(queue[1..], atOnce);
    var n := |Finished(live, o, atOnce)|;
    assert Finished(live, o, atOnce) == queue[..n];
    assert forall i :: 1 <= i < n ==> queue[i] == queue[1..][i - 1];
    SelectMinus(live, Peers(o.kind), queue[..n]);
    SelectDistinct(live, Peers(o.kind));
    MinusPrefix(queue, n);
  }

  lemma {:induction false} AtOncePrefix(queue: seq<Op>, atOnce: Op -> bool)
    ensures var n := |AtOnce(queue, atOnce)|;
            && n <= |queue| && AtOnce(queue, atOnce) == queue[..n]
            && (n < |queue| ==> !atOnce(queue[n])) && (forall i :: 0 <= i < n ==> atOnce(queue[i]))
  {
    if queue != [] && atOnce(queue[0]) {
      AtOncePrefix(queue[1..], atOnce);
      assert forall i :: 1 <= i < |queue| ==> queue[i] == queue[1..][i - 1];
    }
  }

  lemma {:induction false} MinusPrefix(s: seq<Op>, n: nat)
    requires n <= |s| && Distinct(s)
    ensures Minus(s, s[..n]) == s[n..]
  {
    if n == 0 {
      MinusNone(s, []);
    } else {
      MinusPrefix(s[1..], n - 1);
      MinusSame(s[1..], s[..n], s[1..][..n - 1]);
    }
  }

  /** Only membership of the removed ones matters. */
  lemma {:induction false} MinusSame(s: seq<Op>, gone: seq<Op>, gone': seq<Op>)
    requires forall o :: o in s ==> (o in gone <==> o in gone')
    ensures Minus(s, gone) == Minus(s, gone')
  {
    if s != [] {
      MinusSame(s[1..], gone, gone');
    }
  }

  /** The operations that must wait: in each queue, all but the oldest. */
  function Waits(live: seq<Op>): set<Op> {
    Waiting(Select(live, SUB_UNSUB)) + Waiting(Select(live, {Publish}))
  }

  /** The oldest operation of a queue, if any. */
  function Oldest(live: seq<Op>, kinds: set<Kind>): set<Op> {
    var queue := Select(live, kinds);
    if queue == [] then {} else {queue[0]}
  }

  lemma QueueMinus(queue: seq<Op>, o: Op)
    requires Distinct(queue)
    ensures var rest := Minus(queue, [o]);
            if queue != [] && queue[0] == o
            then rest == queue[1..] && Waiting(queue) - {o} == Waiting(rest) + (if rest == [] then {} else {rest[0]})
            else Waiting(queue) - {o} == Waiting(rest) && (queue != [] ==> rest != [] && rest[0] == queue[0])
  {
    if queue != [] {
      if queue[0] == o {
        MinusPrefix(queue, 1);
        assert queue[..1] == [o];
      } else {
        forall x ensures x in Minus(queue[1..], [o]) <==> x in queue[1..] && x != o {
          MinusMembers(queue[1..], [o], x);
        }
        assert Minus(queue, [o])[1..] == Minus(queue[1..], [o]);
      }
    }
  }

  /** Taking away `o` makes the next in its queue the oldest one if `o` was the oldest. */
  lemma WaitsMinus(live: seq<Op>, o: Op, kinds: set<Kind>)
    requires Distinct(live) && (kinds == SUB_UNSUB || kinds == {Publish})
    ensures var rest := Minus(live, [o]);
            if {o} == Oldest(live, kinds)
            then Waiting(Select(live, kinds)) - {o} == Waiting(Select(rest, kinds)) + Oldest(rest, kinds)
                 && Select(rest, kinds) == Select(live, kinds)[1..]
            else Waiting(Select(live, kinds)) - {o} == Waiting(Select(rest, kinds))
                 && Oldest(rest, kinds) == Oldest(live, kinds)
  {
    SelectDistinct(live, kinds);
    SelectMinus(live, kinds, [o]);
    QueueMinus(Select(live, kinds), o);
  }

  /** The oldest of a queue does not wait. */
  lemma OldestRuns(live: seq<Op>, kinds: set<Kind>, o: Op)
    requires Distinct(live) && (kinds == SUB_UNSUB || kinds == {Publish}) && o in live && o.kind in kinds
    ensures o in Waits(live) <==> {o} != Oldest(live, kinds)
    ensures Select(live, kinds) != []
  {
    SelectDistinct(live, kinds);
    SelectMembers(live, SUB_UNSUB, o);
    SelectMembers(live, {Publish}, o);
    var queue := Select(live, kinds);
    var i :| 0 <= i < |queue| && queue[i] == o;
    assert i > 0 ==> queue[1..][i - 1] == o;
    assert Waiting(queue) == set x | x in queue[1..];
    var other := if kinds == SUB_UNSUB then {Publish} else SUB_UNSUB;
    assert o !in Select(live, other);
    assert Select(live, other) != [] ==> forall x :: x in Select(live, other)[1..] ==> x in Select(live, other);
  }

  /** An erased element of one of the client's lists. */
  method EraseFromList(o: Op, list: seq<Op>) returns (r: seq<Op>)
    requires Distinct(list)
    ensures r == Minus(list, [o])
  {
    var i := 0;
    while i < |list| && list[i] != o
      invariant i <= |list| && o !in list[..i]
    {
      i := i + 1;
    }
    if i < |list| {
      EraseIsMinus(list, i);
      return list[..i] + list[i + 1..];
    }
    assert list[..i] == list;
    MinusNone(list, [o]);
    return list;
  }

  /** Entries are only ever set to null while an API call runs. */
  ghost predicate Cleared(before: seq<Entry>, after: seq<Entry>) {
    |after| == |before| && forall i :: 0 <= i < |after| ==> after[i] == before[i] || after[i].None?
  }

  ghost predicate Listed(live: seq<Op>, subs: seq<Op>, unsubs: seq<Op>, sends: seq<Op>, nextSerial: nat) {
    && Distinct(live) && (forall o :: o in live ==> o.serial < nextSerial)
    && subs == Select(live, {Subscribe}) && unsubs == Select(live, {Unsubscribe}) && sends == Select(live, {Publish})
  }

  /** Erasing `o` from the one list it is in keeps the lists in step with the live operations. */
  lemma ListedErase(live: seq<Op>, subs: seq<Op>, unsubs: seq<Op>, sends: seq<Op>, nextSerial: nat, o: Op)
    requires Listed(live, subs, unsubs, sends, nextSerial)
    ensures Distinct(subs) && Distinct(unsubs) && Distinct(sends)
    ensures Listed(Minus(live, [o]), if o.kind == Subscribe then Minus(subs, [o]) else subs,
                   if o.kind == Unsubscribe then Minus(unsubs, [o]) else unsubs,
                   if o.kind == Publish then Minus(sends, [o]) else sends, nextSerial)
  {
    MinusDistinct(live, [o]);
    EraseOne(live, Subscribe, o);
    EraseOne(live, Unsubscribe, o);
    EraseOne(live, Publish, o);
    forall x | x in Minus(live, [o]) ensures x.serial < nextSerial {
      MinusMembers(live, [o], x);
    }
  }

  lemma EraseOne(live: seq<Op>, kind: Kind, o: Op)
    requires Distinct(live)
    ensures Distinct(Select(live, {kind}))
    ensures Select(Minus(live, [o]), {kind}) ==
            if o.kind == kind then Minus(Select(live, {kind}), [o]) else Select(live, {kind})
  {
    SelectDistinct(live, {kind});
    SelectMinus(live, {kind}, [o]);
    SelectMembers(live, {kind}, o);
    if o.kind != kind {
      MinusNone(Select(live, {kind}), [o]);
    }
  }

  /** After `o` is gone: who is suspended beyond those that must wait, and what completes next. */
  lemma Removal(live: seq<Op>, suspended: set<Op>, o: Op, atOnce: Op -> bool)
    requires Distinct(live) && suspended == Waits(live) && o in live
    ensures var rest := Minus(live, [o]);
            var kinds := Peers(o.kind);
            var promoted := (suspended - {o}) * Oldest(rest, kinds);
            if o.kind == Other
            then suspended - {o} == Waits(rest) && Finished(live, o, atOnce) == [o]
            else suspended - {o} == Waits(rest) + promoted
                 && Finished(live, o, atOnce) ==
                    [o] + (if promoted != {} then AtOnce(Select(rest, kinds), atOnce) else [])
  {
    WaitsMinus(live, o, SUB_UNSUB);
    WaitsMinus(live, o, {Publish});
    SelectMembers(live, SUB_UNSUB, o);
    SelectMembers(live, {Publish}, o);
    var rest, kinds := Minus(live, [o]), Peers(o.kind);
    if o.kind != Other {
      MinusDistinct(live, [o]);
      if Oldest(rest, kinds) != {} {
        var h := Select(rest, kinds)[0];
        SelectMembers(rest, kinds, h);
        MinusMembers(live, [o], h);
        OldestRuns(live, kinds, h);
        OldestRuns(rest, kinds, h);
      }
    }
  }

  /** With no operation of one kind, the shared queue holds the other kind only. */
  lemma {:induction false} OnlyKind(live: seq<Op>, here: Kind, absent: Kind)
    requires Select(live, {absent}) == []
    ensures Select(live, {here, absent}) == Select(live, {here})
  {
    if live != [] {
      OnlyKind(live[1..], here, absent);
    }
  }

  lemma FirstOf(live: seq<Op>, before: seq<Op>, o: Op, after: seq<Op>)
    requires live == before + [o] + after && Select(before, SUB_UNSUB) == [] && o.kind in SUB_UNSUB
    ensures Oldest(live, SUB_UNSUB) == {o}
  {
    SelectConcat(before + [o], after, SUB_UNSUB);
    SelectConcat(before, [o], SUB_UNSUB);
    assert Select([o], SUB_UNSUB) == [o];
  }

  /* The client */

  class Client {
    const atOnce: Op -> bool
    const capacity: nat
    var ops: seq<Entry>
    var subscribeOps: seq<Op>
    var unsubscribeOps: seq<Op>
    var sendOps: seq<Op>
    var suspended: set<Op>
    var preparationLocked: bool
    var opsDeleted: bool
    var nextSerial: nat
    ghost var completed: seq<Op>

    /** The lists agree, and `extra` is suspended besides those that must wait. */
    ghost predicate Shape(extra: set<Op>)
      reads this
    {
      && Listed(Live(ops), subscribeOps, unsubscribeOps, sendOps, nextSerial)
      && suspended == Waits(Live(ops)) + extra
    }

    ghost predicate Valid()
      reads this
    {
      Shape({})
    }

    /** The operations `done` were completed in this order; nothing else happened. */
    twostate predicate Did(done: seq<Op>)
      reads this
    {
      && Valid() && Live(ops) == Minus(old(Live(ops)), done) && completed == old(completed) + done
      && preparationLocked == old(preparationLocked) && nextSerial == old(nextSerial) && Cleared(old(ops), ops)
    }

    constructor (atOnce: Op -> bool, capacity: nat)
      ensures Valid() && Live(ops) == [] && completed == [] && !preparationLocked
      ensures this.atOnce == atOnce && this.capacity == capacity
    {
      this.atOnce, this.capacity := atOnce, capacity;
      ops, subscribeOps, unsubscribeOps, sendOps := [], [], [], [];
      suspended, preparationLocked, opsDeleted, nextSerial, completed := {}, false, false, 0, [];
    }

    /** `resume` of the oldest operation in its queue. */
    method Resume(o: Op)
      requires o.kind != Other && Oldest(Live(ops), Peers(o.kind)) == {o} && Shape(suspended * {o})
      modifies this
      ensures Did(if o in old(suspended) then AtOnce(Select(old(Live(ops)), Peers(o.kind)), atOnce) else [])
      decreases |Live(ops)|, 1
    {
      ghost var live := Live(ops);
      SelectMembers(live, Peers(o.kind), o);
      OldestRuns(live, Peers(o.kind), o);
      MinusNone(live, []);
      if o !in suspended {
        return;
      }
      suspended := suspended - {o};
      if atOnce(o) {
        OpComplete(o);
      }
    }

    /** The first SUBSCRIBE or UNSUBSCRIBE operation in the list of all operations. */
    method FirstSubUnsub() returns (o: Op)
      requires Select(Live(ops), SUB_UNSUB) != []
      ensures Oldest(Live(ops), SUB_UNSUB) == {o} && o.kind in SUB_UNSUB
    {
      var i := 0;
      assert ops[..0] == [] && ops[..|ops|] == ops;
      while true
        invariant i <= |ops| && Select(Live(ops[..i]), SUB_UNSUB) == []
        decreases |ops| - i
      {
        LiveSplit(ops, i);
        assert ops[..i + 1] == ops[..i] + [ops[i]];
        LiveConcat(ops[..i], [ops[i]]);
        SelectConcat(Live(ops[..i]), Live([ops[i]]), SUB_UNSUB);
        if ops[i].Some? && ops[i].value.kind in SUB_UNSUB {
          FirstOf(Live(ops), Live(ops[..i]), ops[i].value, Live(ops[i + 1..]));
          return ops[i].value;
        }
        i := i + 1;
      }
    }

    method FinaliseSubUnsubOp()
      requires Shape(suspended * Oldest(Live(ops), SUB_UNSUB))
      modifies this
      ensures Did(if old(suspended * Oldest(Live(ops), SUB_UNSUB)) != {}
                  then AtOnce(Select(old(Live(ops)), SUB_UNSUB), atOnce) else [])
      decreases |Live(ops)|, 2
    {
      ghost var live := Live(ops);
      MinusNone(live, []);
      assert SUB_UNSUB == {Unsubscribe, Subscribe};
      if unsubscribeOps == [] {
        OnlyKind(live, Subscribe, Unsubscribe);
      }
      if subscribeOps == [] {
        OnlyKind(live, Unsubscribe, Subscribe);
      }
      if subscribeOps == [] && unsubscribeOps == [] {
        return;
      }
      if subscribeOps != [] && unsubscribeOps == [] {
        SelectMembers(live, SUB_UNSUB, subscribeOps[0]);
        Resume(subscribeOps[0]);
        return;
      }
      if subscribeOps == [] {
        SelectMembers(live, SUB_UNSUB, unsubscribeOps[0]);
        Resume(unsubscribeOps[0]);
        return;
      }
      SelectMembers(live, SUB_UNSUB, subscribeOps[0]);
      SelectMembers(live, {Subscribe}, subscribeOps[0]);
      var o := FirstSubUnsub();
      Resume(o);
    }

    /** The entry becomes null and the operation is destroyed. */
    method RemoveFromOps(o: Op)
      requires Distinct(Live(ops)) && o in Live(ops)
      modifies `ops, `opsDeleted, `suspended, `completed
      ensures Live(ops) == Minus(old(Live(ops)), [o]) && |Live(ops)| < old(|Live(ops)|)
      ensures Cleared(old(ops), ops) && opsDeleted
      ensures suspended == old(suspended) - {o} && completed == old(completed) + [o]
    {
      LiveMembers(ops, o);
      var i := 0;
      while ops[i] != Some(o)
        invariant i < |ops| && Some(o) in ops[i..]
        modifies {}
        decreases |ops| - i
      {
        i := i + 1;
      }
      ClearIsMinus(ops, i);
      MinusShrinks(Live(ops), [o]);
      ops := ops[i := None];
      opsDeleted := true;
      suspended := suspended - {o};
      completed := completed + [o];
    }

    /** The operation leaves the list of its kind. */
    method Unlist(o: Op)
      requires Distinct(subscribeOps) && Distinct(unsubscribeOps) && Distinct(sendOps)
      modifies `subscribeOps, `unsubscribeOps, `sendOps
      ensures subscribeOps == if o.kind == Subscribe then Minus(old(subscribeOps), [o]) else old(subscribeOps)
      ensures unsubscribeOps == if o.kind == Unsubscribe then Minus(old(unsubscribeOps), [o]) else old(unsubscribeOps)
      ensures sendOps == if o.kind == Publish then Minus(old(sendOps), [o]) else old(sendOps)
    {
      match o.kind {
        case Subscribe => subscribeOps := EraseFromList(o, subscribeOps);
        case Unsubscribe => unsubscribeOps := EraseFromList(o, unsubscribeOps);
        case Publish => sendOps := EraseFromList(o, sendOps);
        case Other =>
      }
    }

    method FinaliseSendOp()
      requires Shape(suspended * Oldest(Live(ops), {Publish}))
      modifies this
      ensures Did(if old(suspended * Oldest(Live(ops), {Publish})) != {}
                  then AtOnce(Select(old(Live(ops)), {Publish}), atOnce) else [])
      decreases |Live(ops)|, 2
    {
      MinusNone(Live(ops), []);
      if sendOps == [] {
        return;
      }
      SelectMembers(Live(ops), {Publish}, sendOps[0]);
      Resume(sendOps[0]);
    }

    /** The completed operation leaves all lists; the next one in its queue is not resumed yet. */
    method Remove(o: Op)
      requires Valid() && o in Live(ops)
      modifies this
      ensures Live(ops) == Minus(old(Live(ops)), [o]) && |Live(ops)| < old(|Live(ops)|)
      ensures completed == old(completed) + [o] && Cleared(old(ops), ops)
      ensures preparationLocked == old(preparationLocked) && nextSerial == old(nextSerial)
      ensures var promoted := suspended * Oldest(Live(ops), Peers(o.kind));
              if o.kind == Other then Valid() && Finished(old(Live(ops)), o, atOnce) == [o]
              else Shape(promoted)
                   && Finished(old(Live(ops)), o, atOnce) ==
                      [o] + (if promoted != {} then AtOnce(Select(Live(ops), Peers(o.kind)), atOnce) else [])
    {
      hide Listed, Waits, Finished, AtOnce, Live, Select, Minus, Oldest, Cleared;
      DistinctLive(Live(ops), subscribeOps, unsubscribeOps, sendOps, nextSerial);
      ListedErase(Live(ops), subscribeOps, unsubscribeOps, sendOps, nextSerial, o);
      Removal(Live(ops), suspended, o, atOnce);
      RemoveFromOps(o);
      Unlist(o);
    }

    method OpComplete(o: Op)
      requires Valid() && o in Live(ops)
      modifies this
      ensures Did(Finished(old(Live(ops)), o, atOnce))
      decreases |Live(ops)|, 0
    {
      hide Listed, Waits, Finished, AtOnce, Live, Select, Minus, Oldest, Cleared, Shape;
      ghost var live, before := Live(ops), ops;
      Remove(o);
      ghost var middle, more := ops, Finished(live, o, atOnce)[1..];
      MinusTwice(live, [o], more);
      assert old(completed) + ([o] + more) == completed + more;
      if o.kind in SUB_UNSUB {
        FinaliseSubUnsubOp();
        ClearedTwice(before, middle, ops);
      } else if o.kind == Publish {
        FinaliseSendOp();
        ClearedTwice(before, middle, ops);
      }
    }

    /** `subscribePrepare`, `unsubscribePrepare` and `publishPrepare`. */
    method Prepare(kind: Kind, connected: bool, disconnecting: bool, memory: bool)
      returns (ec: ErrorCode, o: Option<Op>)
      requires Valid() && kind != Other
      modifies this
      ensures Valid() && completed == old(completed)
      ensures ec == Success <==>
              connected && !disconnecting && old(|ops|) < capacity && !old(preparationLocked) && memory
      ensures ec == NotConnected <==> !connected
      ensures ec == Disconnecting <==> connected && disconnecting
      ensures ec == RetryLater <==> connected && !disconnecting && capacity <= old(|ops|)
      ensures ec == PreparationLocked ==> old(preparationLocked)
      ensures ec == OutOfMemory ==> !memory && (old(preparationLocked) ==> kind == Publish)
      ensures ec != Success ==> o == None && Live(ops) == old(Live(ops)) && preparationLocked == old(preparationLocked)
      ensures ec == Success ==> o.Some? && o.value.kind == kind && o.value !in old(Live(ops))
                                && Live(ops) == old(Live(ops)) + [o.value] && preparationLocked
    {
      hide Listed, Waits, Live, Waiting;
      if !connected {
        return NotConnected, None;
      }
      if disconnecting {
        return Disconnecting, None;
      }
      if capacity <= |ops| {
        return RetryLater, None;
      }
      // a publish operation is allocated before the lock is looked at, the others after
      if kind == Publish && !memory {
        return OutOfMemory, None;
      }
      if preparationLocked {
        return PreparationLocked, None;
      }
      if !memory {
        return OutOfMemory, None;
      }
      var op := Op(kind, nextSerial);
      Append(Live(ops), subscribeOps, unsubscribeOps, sendOps, nextSerial, op);
      LiveAppend(ops, op);
      preparationLocked := true;
      nextSerial := nextSerial + 1;
      ops := ops + [Some(op)];
      match kind {
        case Subscribe =>
          subscribeOps := subscribeOps + [op];
          if 1 < |subscribeOps| || unsubscribeOps != [] {
            suspended := suspended + {op};
          }
        case Unsubscribe =>
          unsubscribeOps := unsubscribeOps + [op];
          if 1 < |unsubscribeOps| || subscribeOps != [] {
            suspended := suspended + {op};
          }
        case Publish =>
          sendOps := sendOps + [op];
          if 1 < |sendOps| {
            suspended := suspended + {op};
          }
      }
      return Success, Some(op);
    }

    /** Any other kind of operation: it is in the list of all operations and in neither queue. */
    method Start() returns (o: Op)
      requires Valid()
      modifies this
      ensures Valid() && o.kind == Other && o !in old(Live(ops)) && Live(ops) == old(Live(ops)) + [o]
      ensures completed == old(completed) && preparationLocked == old(preparationLocked)
    {
      hide Listed, Waits, Live, Waiting;
      o := Op(Other, nextSerial);
      Append(Live(ops), subscribeOps, unsubscribeOps, sendOps, nextSerial, o);
      LiveAppend(ops, o);
      nextSerial := nextSerial + 1;
      ops := ops + [Some(o)];
    }

    /**
     * `send` of a prepared operation.  `rejected`: a missing callback or timer ends it.  `fails` and
     * `done`: sending it now fails, or completes it (QoS 0).
     */
    method Send(o: Op, rejected: bool, fails: bool, done: bool)
      requires Valid() && o in Live(ops) && preparationLocked
      modifies this
      ensures Valid() && !preparationLocked && nextSerial == old(nextSerial)
      ensures var over := rejected || (o !in old(suspended) && (fails || done));
              var ended := if over then Finished(old(Live(ops)), o, atOnce) else [];
              Live(ops) == Minus(old(Live(ops)), ended) && completed == old(completed) + ended
    {
      hide Listed, Waits, Finished, Live, Minus;
      MinusNone(Live(ops), []);
      preparationLocked := false;
      if rejected {
        OpComplete(o);
        return;
      }
      if o !in suspended && (fails || done) {
        OpComplete(o);
      }
    }

    method Cancel(o: Op, sent: bool)
      requires Valid() && o in Live(ops) && (!sent ==> preparationLocked)
      modifies this
      ensures Valid() && preparationLocked == (sent && old(preparationLocked))
      ensures Live(ops) == Minus(old(Live(ops)), Finished(old(Live(ops)), o, atOnce))
      ensures completed == old(completed) + Finished(old(Live(ops)), o, atOnce)
    {
      hide Listed, Waits, Finished, Live, Minus;
      if !sent {
        preparationLocked := false;
      }
      OpComplete(o);
    }

    /** Every operation is completed, the ones its completion resumes among them. */
    method TerminateOps()
      requires Valid()
      modifies this
      ensures Valid() && Live(ops) == [] && old(completed) <= completed
      ensures forall o :: o in old(Live(ops)) ==> o in completed[|old(completed)|..]
    {
      hide Listed, Waits, Finished, Live, Minus;
      var i := 0;
      while i < |ops|
        invariant i <= |ops| && Valid() && forall j :: 0 <= j < i ==> ops[j].None?
        invariant old(completed) <= completed
        invariant forall o :: o in old(Live(ops)) ==> o in Live(ops) || o in completed[|old(completed)|..]
      {
        if ops[i].Some? {
          LiveMembers(ops, ops[i].value);
          OpTerminated(ops[i].value);
        }
        i := i + 1;
      }
      NoneLive(ops);
    }

    method OpTerminated(o: Op)
      requires Valid() && o in Live(ops)
      modifies this
      ensures Valid() && Cleared(old(ops), ops) && Some(o) !in ops && old(completed) <= completed
      ensures forall x :: x in old(Live(ops)) ==> x in Live(ops) || x in completed[|old(completed)|..]
    {
      hide Listed, Waits;
      OpComplete(o);
      LiveMembers(ops, o);
      forall x ensures x in Live(ops) <==> x in old(Live(ops)) && x !in Finished(old(Live(ops)), o, atOnce) {
        MinusMembers(old(Live(ops)), Finished(old(Live(ops)), o, atOnce), x);
      }
    }

    /** Run when the outermost API call ends. */
    method CleanOps()
      requires Valid()
      modifies `ops, `opsDeleted
      ensures Valid() && Live(ops) == old(Live(ops)) && !opsDeleted
      ensures old(opsDeleted) ==> forall i :: 0 <= i < |ops| ==> ops[i].Some?
    {
      if !opsDeleted {
        return;
      }
      NonNullLive(ops);
      ops := NonNull(ops);
      opsDeleted := false;
    }
  }

  function NonNull(ops: seq<Entry>): seq<Entry> {
    if ops == [] then [] else if ops[0].Some? then [ops[0]] + NonNull(ops[1..]) else NonNull(ops[1..])
  }

  lemma {:induction false} NonNullLive(ops: seq<Entry>)
    ensures Live(NonNull(ops)) == Live(ops) && forall i :: 0 <= i < |NonNull(ops)| ==> NonNull(ops)[i].Some?
  {
    if ops != [] {
      NonNullLive(ops[1..]);
      if ops[0].Some? {
        assert NonNull(ops)[1..] == NonNull(ops[1..]);
      }
    }
  }

  lemma {:induction false} NoneLive(ops: seq<Entry>)
    requires forall i :: 0 <= i < |ops| ==> ops[i].None?
    ensures Live(ops) == []
  {
    if ops != [] {
      NoneLive(ops[1..]);
    }
  }

  lemma LiveAppend(ops: seq<Entry>, o: Op)
    ensures Live(ops + [Some(o)]) == Live(ops) + [o]
  {
    LiveConcat(ops, [Some(o)]);
    assert Live([Some(o)]) == [o];
  }

  /** A new operation waits exactly when its queue is not empty. */
  lemma Append(live: seq<Op>, subs: seq<Op>, unsubs: seq<Op>, sends: seq<Op>, nextSerial: nat, o: Op)
    requires Listed(live, subs, unsubs, sends, nextSerial) && o.serial == nextSerial
    ensures o !in live
    ensures Listed(live + [o], if o.kind == Subscribe then subs + [o] else subs,
                   if o.kind == Unsubscribe then unsubs + [o] else unsubs,
                   if o.kind == Publish then sends + [o] else sends, nextSerial + 1)
    ensures var busy := if o.kind == Publish then sends != [] else o.kind != Other && (subs != [] || unsubs != []);
            Waits(live + [o]) == if busy then Waits(live) + {o} else Waits(live)
  {
    SelectAppend(live, {Subscribe}, o);
    SelectAppend(live, {Unsubscribe}, o);
    SelectAppend(live, {Publish}, o);
    SelectAppend(live, SUB_UNSUB, o);
    BothKinds(live);
    WaitingAppend(Select(live, SUB_UNSUB), o);
    WaitingAppend(Select(live, {Publish}), o);
  }

  lemma SelectAppend(live: seq<Op>, kinds: set<Kind>, o: Op)
    ensures Select(live + [o], kinds) == if o.kind in kinds then Select(live, kinds) + [o] else Select(live, kinds)
  {
    SelectConcat(live, [o], kinds);
    assert Select([o], kinds) == if o.kind in kinds then [o] else [];
  }

  lemma WaitingAppend(queue: seq<Op>, o: Op)
    ensures Waiting(queue + [o]) == if queue == [] then {} else Waiting(queue) + {o}
  {
    assert queue != [] ==> (queue + [o])[1..] == queue[1..] + [o];
  }

  lemma {:induction false} BothKinds(live: seq<Op>)
    ensures Select(live, SUB_UNSUB) == [] <==> Select(live, {Subscribe}) == [] && Select(live, {Unsubscribe}) == []
  {
    if live != [] {
      BothKinds(live[1..]);
    }
  }

  /**
   * One transaction at a time: of the live SUBSCRIBE and UNSUBSCRIBE operations exactly the oldest is
   * not suspended, and of the PUBLISH operations exactly the front of their list.
   */
  lemma OneTransaction(c: Client, o: Op)
    requires c.Valid() && o in Live(c.ops) && o.kind != Other
    ensures Select(Live(c.ops), Peers(o.kind)) != []
    ensures o !in c.suspended <==> o == Select(Live(c.ops), Peers(o.kind))[0]
    ensures o.kind == Publish ==> c.sendOps != [] && Select(Live(c.ops), Peers(o.kind))[0] == c.sendOps[0]
  {
    OldestRuns(Live(c.ops), Peers(o.kind), o);
  }

  lemma ClearedTwice(a: seq<Entry>, b: seq<Entry>, c: seq<Entry>)
    requires Cleared(a, b) && Cleared(b, c)
    ensures Cleared(a, c)
  {
  }

  lemma DistinctLive(live: seq<Op>, subs: seq<Op>, unsubs: seq<Op>, sends: seq<Op>, nextSerial: nat)
    requires Listed(live, subs, unsubs, sends, nextSerial)
    ensures Distinct(live)
  {
  }
}
