/**
 The listeners of an active object (iw_core/ActiveObject.cpp), by the id of their handle. Removing
 walks the list with a loop that overlooks the element after an erased one.
 */
module ActiveObject {
  import opened Basics
  import opened SkipErase

  type Uid = nat

  datatype Delivery = Delivery(to: Uid, msg: nat)

  datatype Op = Add(x: Uid) | Remove(x: Uid) | Event(msg: nat)

  function Is(x: Uid): Uid -> bool {
    y => y == x
  }

  function Filter(s: seq<Uid>, x: Uid): (r: seq<Uid>)
    ensures forall y :: y in r <==> y in s && y != x
  {
    if s == [] then [] else (if s[0] == x then [] else [s[0]]) + Filter(s[1..], x)
  }

  function Fanout(listeners: seq<Uid>, msg: nat): (ds: seq<Delivery>)
    ensures |ds| == |listeners| && forall i | 0 <= i < |ds| :: ds[i] == Delivery(listeners[i], msg)
  {
    seq(|listeners|, i requires 0 <= i < |listeners| => Delivery(listeners[i], msg))
  }

  // ----- what the calls should add up to -----

  predicate Concerns(ops: seq<Op>, x: Uid) {
    exists i :: 0 <= i < |ops| && (ops[i] == Add(x) || ops[i] == Remove(x))
  }

  /** The listeners whose last call is an addition, in the order of these last additions. */
  function LastAdded(ops: seq<Op>): seq<Uid> {
    if ops == [] then [] else Counts(ops[0], ops[1..]) + LastAdded(ops[1..])
  }

  /** Whether a call is the last word on its listener, and adds it. */
  function Counts(op: Op, later: seq<Op>): seq<Uid> {
    if op.Add? && !Concerns(later, op.x) then [op.x] else []
  }

  /** Every event goes once to each of those who are registered when it happens. */
  function Deliveries(ops: seq<Op>): seq<Delivery> {
    if ops == [] then []
    else
      var before := ops[..|ops| - 1];
      match ops[|ops| - 1]
      case Event(msg) => Deliveries(before) + Fanout(LastAdded(before), msg)
      case _ => Deliveries(before)
  }

  lemma ConcernsCons(op: Op, ops: seq<Op>, x: Uid)
    ensures Concerns([op] + ops, x) <==> op == Add(x) || op == Remove(x) || Concerns(ops, x)
  {
    var all := [op] + ops;
    if op == Add(x) || op == Remove(x) {
      assert all[0] == op;
    }
    if i :| 0 <= i < |ops| && (ops[i] == Add(x) || ops[i] == Remove(x)) {
      assert all[i + 1] == ops[i];
    }
  }

  lemma ConcernsSnoc(ops: seq<Op>, op: Op, x: Uid)
    ensures Concerns(ops + [op], x) <==> op == Add(x) || op == Remove(x) || Concerns(ops, x)
  {
    var all := ops + [op];
    if op == Add(x) || op == Remove(x) {
      assert all[|ops|] == op;
    }
    if i :| 0 <= i < |ops| && (ops[i] == Add(x) || ops[i] == Remove(x)) {
      assert all[i] == ops[i];
    }
  }

  /** One more call takes its listener out, and an addition puts it at the end. */
  lemma {:induction false} LastAddedSnoc(ops: seq<Op>, op: Op)
    ensures LastAdded(ops + [op]) ==
              match op
              case Add(x) => Filter(LastAdded(ops), x) + [x]
              case Remove(x) => Filter(LastAdded(ops), x)
              case Event(_) => LastAdded(ops)
  {
    if ops == [] {
      assert ops + [op] == [op] && [op][1..] == [];
      assert !Concerns([], if op.Event? then 0 else op.x);
    } else {
      hide Concerns;
      var all := ops + [op];
      assert all[1..] == ops[1..] + [op] && all[0] == ops[0];
      LastAddedSnoc(ops[1..], op);
      if ops[0].Add? {
        ConcernsSnoc(ops[1..], op, ops[0].x);
      }
      Prepend(Counts(ops[0], ops[1..]), LastAdded(ops[1..]), if op.Event? then 0 else op.x);
      if !op.Event? && Counts(ops[0], ops[1..]) == [op.x] {
        assert Counts(ops[0], all[1..]) == [];
      }
    }
  }

  lemma Prepend(h: seq<Uid>, t: seq<Uid>, x: Uid)
    requires |h| <= 1
    ensures Filter(h + t, x) == (if h == [x] then [] else h) + Filter(t, x)
    ensures forall g: seq<Uid> :: g + (Filter(t, x) + [x]) == g + Filter(t, x) + [x]
  {
    if h == [] {
      assert h + t == t && h + Filter(t, x) == Filter(t, x);
    } else {
      assert (h + t)[1..] == t;
    }
  }

  /** Registered is whoever has been added and not been named since; and is listed once. */
  lemma {:induction false} LastAddedMeans(ops: seq<Op>, x: Uid)
    ensures x in LastAdded(ops) <==> exists i :: 0 <= i < |ops| && ops[i] == Add(x) && !Concerns(ops[i + 1..], x)
    ensures Distinct(LastAdded(ops))
    ensures x in LastAdded(ops) ==> Concerns(ops, x)
  {
    if ops != [] {
      hide Concerns;
      var rest := ops[1..];
      LastAddedMeans(rest, x);
      assert ops == [ops[0]] + rest;
      ConcernsCons(ops[0], rest, x);
      if ops[0].Add? {
        LastAddedMeans(rest, ops[0].x);
      }
      if i :| 0 <= i < |ops| && ops[i] == Add(x) && !Concerns(ops[i + 1..], x) {
        if i > 0 {
          assert rest[i - 1] == ops[i] && rest[i - 1 + 1..] == ops[i + 1..];
        }
      }
      if i :| 0 <= i < |rest| && rest[i] == Add(x) && !Concerns(rest[i + 1..], x) {
        assert ops[i + 1] == rest[i] && ops[i + 1 + 1..] == rest[i + 1..];
      }
    }
  }

  /** With distinct ids the loop removes a listener completely, although it overlooks an element. */
  lemma {:induction false} DistinctSwept(s: seq<Uid>, x: Uid)
    requires Distinct(s)
    ensures Swept(s, Is(x)) == Filter(s, x) && Distinct(Filter(s, x))
  {
    if s != [] {
      DistinctSwept(s[1..], x);
      var tail := Filter(s[1..], x);
      assert s[0] !in s[1..];
      if s[0] == x {
        NothingSwept(s[1..], Is(x));
        HeadSwept(s, Is(x));
        assert [] + tail == tail;
      } else {
        assert Distinct([s[0]] + tail);
      }
    }
  }

  // ----- the object -----

  class Listeners {
    var list: seq<Uid>
    var sent: seq<Delivery>

    constructor ()
      ensures list == [] && sent == []
    {
      list, sent := [], [];
    }

    /** Whatever the list is, the listener is gone afterwards exactly if no two entries for it were
        neighbours; no handle is no listener. */
    method RemoveEventListener(handle: Option<Uid>)
      modifies this`list
      ensures list == if handle.None? then old(list) else Swept(old(list), Is(handle.value))
      ensures handle.Some? ==> (handle.value !in list <==> !TwoInARow(old(list), Is(handle.value)))
    {
      if handle.None? {
        return;
      }
      var x := handle.value;
      ghost var was := list;
      hide Swept;
      var i := 0;
      assert list[..0] == [] && list[0..] == list;
      Nil(Swept(list, Is(x)));
      while i < |list|
        invariant 0 <= i <= |list| && list[..i] + Swept(list[i..], Is(x)) == Swept(was, Is(x))
        decreases |list| - i
      {
        ghost var l := list;
        if list[i] == x {
          list := list[..i] + list[i + 1..];
          if i == |list| {
            PassErasesLast(l, i, Is(x));
            break;
          }
          PassErases(l, i, Is(x));
        } else {
          PassKeeps(l, i, Is(x));
        }
        i := i + 1;
      }
      SweepsAllIff(was, Is(x));
      assert x !in list <==> NoneDead(list, Is(x));
    }

    /** A listener that is added again moves to the end. */
    method AddEventListener(x: Uid)
      requires Distinct(list)
      modifies this`list
      ensures Distinct(list) && list == Filter(old(list), x) + [x]
    {
      DistinctSwept(list, x);
      RemoveEventListener(Some(x));
      list := list + [x];
    }

    method UponActiveObjectEvent(msg: nat)
      modifies this`sent
      ensures sent == old(sent) + Fanout(list, msg)
    {
      var i := 0;
      while i < |list|
        invariant 0 <= i <= |list| && sent == old(sent) + Fanout(list[..i], msg)
      {
        assert Fanout(list[..i + 1], msg) == Fanout(list[..i], msg) + [Delivery(list[i], msg)];
        sent := sent + [Delivery(list[i], msg)];
        i := i + 1;
      }
      assert list[..i] == list;
    }

    /** Over any calls, from an empty list: the list holds the listeners in the order in which they
        were last added, and every event has reached each listener of its time once, in that order. */
    method Replay(ops: seq<Op>)
      requires list == [] && sent == []
      modifies this
      ensures list == LastAdded(ops) && Distinct(list)
      ensures sent == Deliveries(ops)
    {
      for i := 0 to |ops|
        invariant list == LastAdded(ops[..i]) && Distinct(list) && sent == Deliveries(ops[..i])
      {
        assert ops[..i + 1] == ops[..i] + [ops[i]];
        assert ops[..i + 1][..i] == ops[..i];
        LastAddedSnoc(ops[..i], ops[i]);
        match ops[i] {
          case Add(x) => AddEventListener(x);
          case Remove(x) =>
            DistinctSwept(list, x);
            RemoveEventListener(Some(x));
          case Event(msg) => UponActiveObjectEvent(msg);
        }
      }
      assert ops[..|ops|] == ops;
    }
  }
}
