/**
 The chain of free-running lanes in iw_lanes/lanes.cpp: an intrusive singly linked list that ends at
 a sentinel, so that a null link means "not in the chain". Every method runs under 'selfdestruct_cs'.
 */
module SelfdestructChain {
  import opened Basics

  /** The list after the first 'x' is taken out. */
  function Without<T(==)>(chain: seq<T>, x: T): seq<T> {
    if chain == [] then [] else if chain[0] == x then chain[1..] else [chain[0]] + Without(chain[1..], x)
  }

  lemma {:induction false} WithoutMember<T>(chain: seq<T>, x: T)
    requires Distinct(chain)
    ensures Distinct(Without(chain, x))
    ensures forall y :: y in Without(chain, x) <==> y in chain && y != x
  {
    if chain != [] {
      assert forall y :: y in chain <==> y == chain[0] || y in chain[1..];
      assert chain[0] !in chain[1..];
      WithoutMember(chain[1..], x);
    }
  }

  lemma {:induction false} WithoutAt<T>(chain: seq<T>, i: nat)
    requires Distinct(chain) && i < |chain|
    ensures Without(chain, chain[i]) == chain[..i] + chain[i + 1..]
  {
    if i > 0 {
      assert chain[1..][i - 1] == chain[i];
      WithoutAt(chain[1..], i - 1);
      assert chain[1..][..i - 1] == chain[1..i];
      assert chain[..i] == [chain[0]] + chain[1..i];
    }
  }

  predicate Before<T(==)>(chain: seq<T>, x: T, y: T) {
    exists i, j :: 0 <= i < j < |chain| && chain[i] == x && chain[j] == y
  }

  lemma WithoutIndex<T>(chain: seq<T>, x: T, k: nat)
    requires Distinct(chain) && k < |chain| && chain[k] == x
    ensures |Without(chain, x)| == |chain| - 1
    ensures forall i | 0 <= i < |chain| - 1 :: Without(chain, x)[i] == chain[if i < k then i else i + 1]
  {
    WithoutAt(chain, k);
  }

  /** Taking one lane out leaves the others in their order. */
  lemma OrderKept<T>(chain: seq<T>, x: T, a: T, b: T)
    requires Distinct(chain) && a != x && b != x
    ensures Before(chain, a, b) <==> Before(Without(chain, x), a, b)
  {
    hide Without, Distinct;
    if x in chain {
      var k :| 0 <= k < |chain| && chain[k] == x;
      WithoutIndex(chain, x, k);
      var rest := Without(chain, x);
      if Before(chain, a, b) {
        var i, j :| 0 <= i < j < |chain| && chain[i] == a && chain[j] == b;
        var i', j' := if i < k then i else i - 1, if j < k then j else j - 1;
        assert 0 <= i' < j' < |rest| && rest[i'] == a && rest[j'] == b;
      }
      if Before(rest, a, b) {
        var i, j :| 0 <= i < j < |rest| && rest[i] == a && rest[j] == b;
        var i', j' := if i < k then i else i + 1, if j < k then j else j + 1;
        assert 0 <= i' < j' < |chain| && chain[i'] == a && chain[j'] == b;
      }
    } else {
      WithoutNothing(chain, x);
    }
  }

  lemma {:induction false} WithoutNothing<T>(chain: seq<T>, x: T)
    requires x !in chain
    ensures Without(chain, x) == chain
  {
    if chain != [] {
      WithoutNothing(chain[1..], x);
    }
  }

  class LaneRecord {
    var next: LaneRecord?
    var cancelRequest: bool

    constructor ()
      ensures next == null && !cancelRequest
    {
      next, cancelRequest := null, false;
    }
  }

  /** The value of 'struct s_lane **ref': the address of the head, or of the link of a lane. */
  datatype LinkAddress = Head | LinkOf(lane: LaneRecord)

  class Chain {
    const end: LaneRecord
    var first: LaneRecord
    ghost var lanes: set<LaneRecord>
    ghost var contents: seq<LaneRecord>

    ghost function Target(chain: seq<LaneRecord>, i: nat): LaneRecord {
      if i < |chain| then chain[i] else end
    }

    ghost predicate Follows(chain: seq<LaneRecord>, i: nat)
      requires i < |chain|
      reads chain[i]
    {
      chain[i].next == Target(chain, i + 1)
    }

    /** Following the links from 'first' yields 'contents' and then the sentinel; of all lanes, those
        with a link are the ones in the chain. */
    ghost predicate Valid()
      reads this, lanes
    {
      && end !in lanes
      && (forall l | l in contents :: l in lanes)
      && Distinct(contents)
      && first == Target(contents, 0)
      && (forall i | 0 <= i < |contents| :: Follows(contents, i))
      && (forall l | l in lanes :: l.next != null <==> l in contents)
    }

    constructor ()
      ensures Valid() && contents == [] && lanes == {}
    {
      var sentinel := new LaneRecord();
      end, first, contents, lanes := sentinel, sentinel, [], {};
    }

    /** A new lane record starts unlinked. */
    method NewLane() returns (s: LaneRecord)
      requires Valid()
      modifies this`lanes
      ensures Valid() && fresh(s) && lanes == old(lanes) + {s} && s !in contents && !s.cancelRequest
    {
      s := new LaneRecord();
      lanes := lanes + {s};
    }

    /** selfdestruct_add */
    method Add(s: LaneRecord)
      requires Valid() && s in lanes && s.next == null
      modifies this`first, this`contents, s`next
      ensures Valid() && contents == [s] + old(contents)
    {
      s.next := first;
      first := s;
      contents := [s] + contents;
      forall i | 0 <= i < |contents| ensures Follows(contents, i) {
        if i > 0 {
          assert old(Follows(contents, i - 1));
        }
      }
    }

    /** *ref */
    function Load(ref: LinkAddress): LaneRecord?
      reads this, if ref.LinkOf? then {ref.lane} else {}
    {
      if ref.Head? then first else ref.lane.next
    }

    /** 'ref' is the address of the link that leads to position 'i'. */
    ghost predicate LeadsTo(ref: LinkAddress, i: nat)
      reads this
    {
      i <= |contents| && ref == if i == 0 then Head else LinkOf(contents[i - 1])
    }

    /** selfdestruct_remove: a linked lane is always found. */
    method Remove(s: LaneRecord) returns (found: bool)
      requires Valid() && s in lanes
      modifies this`first, this`contents, lanes`next
      ensures Valid() && lanes == old(lanes) && contents == Without(old(contents), s)
      ensures found <==> s in old(contents)
      ensures s.next == null
    {
      found := false;
      if s.next == null {
        WithoutNothing(contents, s);
        return;
      }
      var ref := Head;
      ghost var i := 0;
      while Load(ref) != end
        invariant LeadsTo(ref, i) && Load(ref) == Target(contents, i) && !found && s in contents[i..]
        invariant Valid() && lanes == old(lanes) && contents == old(contents) && s.next == old(s.next)
        invariant forall l | l in lanes :: l.next == old(l.next)
        decreases |contents| - i
      {
        assert Follows(contents, i);
        if Load(ref) == s {
          Unlink(s, ref, i);
          found := true;
          break;
        }
        ref := LinkOf(Load(ref));
        i := i + 1;
      }
    }

    /** *ref= s->selfdestruct_next; s->selfdestruct_next= NULL */
    method Unlink(s: LaneRecord, ref: LinkAddress, ghost i: nat)
      requires Valid() && LeadsTo(ref, i) && i < |contents| && contents[i] == s
      modifies this`first, this`contents, lanes`next
      ensures Valid() && lanes == old(lanes) && contents == Without(old(contents), s) && s.next == null
    {
      hide Distinct, Without, Target;
      ghost var was := contents;
      ghost var rest := was[..i] + was[i + 1..];
      assert Follows(was, i) && was[i] in lanes && (i > 0 ==> was[i - 1] in lanes);
      WithoutAt(was, i);
      WithoutMember(was, s);
      HeadMoved(was, i);
      var next := s.next;
      match ref {
        case Head => first := next;
        case LinkOf(p) => p.next := next;
      }
      s.next := null;
      contents := rest;
      assert forall l | l in lanes && l != s && (i == 0 || l != was[i - 1]) :: l.next == old(l.next);
      forall j | 0 <= j < |contents| ensures Follows(contents, j) {
        LinkMoved(was, i, j);
        assert old(Follows(was, if j < i then j else j + 1));
      }
    }

    lemma HeadMoved(was: seq<LaneRecord>, i: nat)
      requires Distinct(was) && i < |was|
      ensures Target(was[..i] + was[i + 1..], 0) == Target(was, if i == 0 then 1 else 0)
      ensures i > 0 ==> was[i - 1] != was[i]
    {
    }

    /** The lane before the one at 'i' is followed by the one after it, all others as before. */
    lemma LinkMoved(was: seq<LaneRecord>, i: nat, j: nat)
      requires Distinct(was) && i < |was| && j < |was| - 1
      ensures var rest, k := was[..i] + was[i + 1..], if j < i then j else j + 1;
              && rest[j] == was[k] && was[k] != was[i]
              && (i > 0 && k != i - 1 ==> was[k] != was[i - 1])
              && Target(rest, j + 1) == Target(was, if k + 1 == i then i + 1 else k + 1)
    {
    }

    /** selfdestruct_atexit, first walk: flags exactly the lanes in the chain. */
    method CancelAll()
      requires Valid()
      modifies lanes`cancelRequest
      ensures Valid()
      ensures forall l | l in lanes :: l.cancelRequest == (old(l.cancelRequest) || l in contents)
    {
      if first == end { return; }
      var s: LaneRecord? := first;
      ghost var i := 0;
      while s != end
        invariant i <= |contents| && s == Target(contents, i)
        invariant Valid()
        invariant forall l | l in lanes :: l.cancelRequest == (old(l.cancelRequest) || l in contents[..i])
        decreases |contents| - i
      {
        assert Follows(contents, i);
        s.cancelRequest := true;
        assert contents[..i + 1] == contents[..i] + [s];
        s := s.next;
        i := i + 1;
      }
      assert contents[..i] == contents;
    }

    /** selfdestruct_atexit, second walk: counts the lanes that are left. */
    method Count() returns (n: nat)
      requires Valid()
      ensures n == |contents|
    {
      n := 0;
      if first == end { return; }
      var s: LaneRecord? := first;
      while s != end
        invariant n <= |contents| && s == Target(contents, n)
        decreases |contents| - n
      {
        assert Follows(contents, n);
        n := n + 1;
        s := s.next;
      }
    }
  }

  // ----- any sequence of calls -----

  datatype Call = AddLane(l: nat) | RemoveLane(l: nat)

  /** The chain as a set: what adding an unlinked lane and removing any lane should do. */
  function Members(calls: seq<Call>): set<nat> {
    if calls == [] then {}
    else
      var was := Members(calls[..|calls| - 1]);
      match calls[|calls| - 1]
      case AddLane(l) => was + {l}
      case RemoveLane(l) => was - {l}
  }

  /** Makes the calls on the lanes of an array of records; only unlinked lanes are added. */
  method Replay(chain: Chain, records: seq<LaneRecord>, calls: seq<Call>)
    requires chain.Valid() && chain.contents == []
    requires Distinct(records) && forall r | r in records :: r in chain.lanes
    requires forall c | c in calls :: c.l < |records|
    modifies chain, chain.lanes
    ensures chain.Valid() && chain.lanes == old(chain.lanes)
    ensures forall k | 0 <= k < |records| :: records[k] in chain.contents <==> k in Members(calls)
    ensures forall r | r in chain.contents :: r in records
  {
    for i := 0 to |calls|
      invariant chain.Valid() && chain.lanes == old(chain.lanes)
      invariant forall k | 0 <= k < |records| :: records[k] in chain.contents <==> k in Members(calls[..i])
      invariant forall r | r in chain.contents :: r in records
    {
      assert calls[..i + 1][..i] == calls[..i];
      match calls[i] {
        case AddLane(l) =>
          assert calls[i] in calls;
          if records[l].next == null {
            chain.Add(records[l]);
          }
        case RemoveLane(l) =>
          assert calls[i] in calls;
          ghost var was := chain.contents;
          var _ := chain.Remove(records[l]);
          WithoutMember(was, records[l]);
      }
    }
    assert calls[..|calls|] == calls;
  }
}
