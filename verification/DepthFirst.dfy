/**
 The order in which an inter-state copy (iw_lanes/tools.cpp) meets tables and functions: depth first,
 the entries of a table in whatever order lua_next yields them and then its metatable, the upvalues of
 a function in theirs.
 */
module DepthFirst {
  import opened Basics
  import opened LuaGraph

  predicate Cached(v: Value) {
    v.TableRef? || v.FunctionRef?
  }

  // ----- what a visit of one object leads to -----

  /** 'ks' lists the basic keys that are not to come any more, each once. */
  ghost predicate KeysSoFar(entries: map<Value, Value>, todo: set<Value>, ks: seq<Value>) {
    Distinct(ks) && forall k :: k in ks <==> k in entries && Basic(k) && k !in todo
  }

  function At(entries: map<Value, Value>, ks: seq<Value>): (vs: seq<Value>)
    requires forall k | k in ks :: k in entries
    ensures |vs| == |ks| && forall i | 0 <= i < |ks| :: vs[i] == entries[ks[i]]
  {
    seq(|ks|, i requires 0 <= i < |ks| => entries[ks[i]])
  }

  /** The metatable, unless the target has known it from the start. */
  function MetaChild(m: Option<Ref>, known: set<Ref>): seq<Value> {
    if m.Some? && m.value !in known then [TableRef(m.value)] else []
  }

  /** 'cs' is what is visited from 'v', in turn. */
  ghost predicate Children(g: Graph, known: set<Ref>, v: Value, cs: seq<Value>) {
    match v
    case TableRef(t) => t in g.tables && TableChildren(g.tables[t], known, cs)
    case FunctionRef(f) => f in g.funcs && cs == g.funcs[f].upvalues
    case _ => false
  }

  ghost predicate TableChildren(t: Table, known: set<Ref>, cs: seq<Value>) {
    exists ks :: KeysSoFar(t.entries, {}, ks) && cs == At(t.entries, ks) + MetaChild(t.meta, known)
  }

  // ----- walks -----

  /** What is still in work below the first object. */
  function Below(stop: Option<seq<Value>>): Option<seq<Value>>
    requires stop.Some? ==> stop.value != []
  {
    if stop.Some? then Some(stop.value[1..]) else None
  }

  /** A visit of 'v', when 'before' has been met, meets 'seg'. If it stops on the way, 'stop' tells the
      objects then in work, from 'v' down; it stops at a thread, or at a function met before. */
  ghost predicate Walked(
      g: Graph, known: set<Ref>, before: seq<Value>, seg: seq<Value>, v: Value, stop: Option<seq<Value>>)
    decreases |seg|, 0, 0
  {
    if !Cached(v) || v in before then
      && seg == []
      && match stop
         case None => !v.ThreadRef?
         case Some(open) => open == [] && (v.ThreadRef? || v.FunctionRef?)
    else
      && seg != [] && seg[0] == v
      && (stop.Some? ==> stop.value != [] && stop.value[0] == v)
      && exists cs :: Children(g, known, v, cs) && WalkedAll(g, known, before + [v], seg[1..], cs, Below(stop))
  }

  /** The same of several values in turn. */
  ghost predicate WalkedAll(
      g: Graph, known: set<Ref>, before: seq<Value>, seg: seq<Value>, cs: seq<Value>, stop: Option<seq<Value>>)
    decreases |seg|, 1, 2 * |cs|
  {
    if cs == [] then
      seg == [] && stop.None?
    else
      || (stop.Some? && Walked(g, known, before, seg, cs[0], stop))
      || exists k :: WalkedFirst(g, known, before, seg, cs, stop, k)
  }

  /** The first value has been visited completely, and has met the first 'k' objects. */
  ghost predicate WalkedFirst(
      g: Graph, known: set<Ref>, before: seq<Value>, seg: seq<Value>, cs: seq<Value>, stop: Option<seq<Value>>, k: nat)
    requires cs != []
    decreases |seg|, 1, 2 * |cs| - 1
  {
    && k <= |seg| && Walked(g, known, before, seg[..k], cs[0], None)
    && WalkedAll(g, known, before + seg[..k], seg[k..], cs[1..], stop)
  }

  /** A visit meets its own object first. */
  lemma WalkBegins(g: Graph, known: set<Ref>, before: seq<Value>, seg: seq<Value>, v: Value, stop: Option<seq<Value>>)
    requires Walked(g, known, before, seg, v, stop) && Cached(v) && v !in before
    ensures seg != [] && seg[0] == v
  {
  }

  lemma FirstIsFirst(g: Graph, known: set<Ref>, before: seq<Value>, seg: seq<Value>, cs: seq<Value>,
                     stop: Option<seq<Value>>)
    requires WalkedAll(g, known, before, seg, cs, stop) && cs != [] && Cached(cs[0]) && cs[0] !in before
    ensures seg != [] && seg[0] == cs[0]
  {
    hide Walked;
    if k: nat :| WalkedFirst(g, known, before, seg, cs, stop, k) {
      WalkBegins(g, known, before, seg[..k], cs[0], None);
    } else {
      WalkBegins(g, known, before, seg, cs[0], stop);
    }
  }

  lemma OnlyOne(g: Graph, known: set<Ref>, before: seq<Value>, seg: seq<Value>, c: Value, stop: Option<seq<Value>>)
    requires WalkedAll(g, known, before, seg, [c], stop)
    ensures Walked(g, known, before, seg, c, stop)
  {
    hide Walked;
    if k: nat :| WalkedFirst(g, known, before, seg, [c], stop, k) {
      assert [c][1..] == [] && WalkedAll(g, known, before + seg[..k], seg[k..], [], stop);
      assert seg[..k] == seg;
    }
  }

  lemma FirstVisit(g: Graph, known: set<Ref>, before: seq<Value>, seg: seq<Value>, cs: seq<Value>) returns (k: nat)
    requires WalkedAll(g, known, before, seg, cs, None) && cs != []
    ensures k <= |seg| && Walked(g, known, before, seg[..k], cs[0], None)
  {
    hide Walked;
    k :| WalkedFirst(g, known, before, seg, cs, None, k);
  }

  /** What a visit of an object goes on with. */
  lemma WalkInside(g: Graph, known: set<Ref>, before: seq<Value>, seg: seq<Value>, v: Value, stop: Option<seq<Value>>)
    returns (cs: seq<Value>)
    requires Walked(g, known, before, seg, v, stop) && Cached(v) && v !in before
    ensures seg != [] && Children(g, known, v, cs) && (stop.Some? ==> stop.value != [] && stop.value[0] == v)
    ensures WalkedAll(g, known, before + [v], seg[1..], cs, Below(stop))
  {
    hide WalkedAll, Children;
    cs :| Children(g, known, v, cs) && WalkedAll(g, known, before + [v], seg[1..], cs, Below(stop));
  }

  lemma OneEntry(t: Table, known: set<Ref>, k: Value, cs: seq<Value>)
    requires Basic(k) && t.entries.Keys == {k} && TableChildren(t, known, cs)
    ensures cs == [t.entries[k]] + MetaChild(t.meta, known)
  {
    var ks :| KeysSoFar(t.entries, {}, ks) && cs == At(t.entries, ks) + MetaChild(t.meta, known);
    OneKey(t.entries, k, ks);
  }

  lemma OneKey(entries: map<Value, Value>, k: Value, ks: seq<Value>)
    requires Basic(k) && entries.Keys == {k} && KeysSoFar(entries, {}, ks)
    ensures ks == [k]
  {
    assert k in ks && (|ks| >= 2 ==> ks[0] != ks[1]);
    forall i | 0 <= i < |ks| ensures ks[i] == k {
      assert ks[i] in ks && ks[i] in entries.Keys;
    }
  }

  lemma {:induction false} OneMoreWalked(
      g: Graph, known: set<Ref>, before: seq<Value>, seg: seq<Value>, cs: seq<Value>,
      more: seq<Value>, c: Value, stop: Option<seq<Value>>)
    requires WalkedAll(g, known, before, seg, cs, None) && Walked(g, known, before + seg, more, c, stop)
    ensures WalkedAll(g, known, before, seg + more, cs + [c], stop)
    decreases |cs|
  {
    hide Walked;
    if cs == [] {
      assert before + [] == before && seg + more == more && cs + [c] == [c];
      if stop.None? {
        assert more[..|more|] == more && more[|more|..] == [];
        assert WalkedFirst(g, known, before, more, [c], stop, |more|);
      }
    } else {
      var k: nat :| WalkedFirst(g, known, before, seg, cs, None, k);
      assert before + seg[..k] + seg[k..] == before + seg;
      OneMoreWalked(g, known, before + seg[..k], seg[k..], cs[1..], more, c, stop);
      assert (seg + more)[..k] == seg[..k] && (seg + more)[k..] == seg[k..] + more;
      assert (cs + [c])[0] == cs[0] && (cs + [c])[1..] == cs[1..] + [c];
      assert WalkedFirst(g, known, before, seg + more, cs + [c], stop, k);
    }
  }

  /** Where a walk stops does not depend on what would have come later. */
  lemma {:induction false} StoppedBefore(
      g: Graph, known: set<Ref>, before: seq<Value>, seg: seq<Value>, cs: seq<Value>,
      later: seq<Value>, open: seq<Value>)
    requires WalkedAll(g, known, before, seg, cs, Some(open))
    ensures WalkedAll(g, known, before, seg, cs + later, Some(open))
    decreases |cs|
  {
    hide Walked;
    if k: nat :| WalkedFirst(g, known, before, seg, cs, Some(open), k) {
      StoppedBefore(g, known, before + seg[..k], seg[k..], cs[1..], later, open);
      assert (cs + later)[1..] == cs[1..] + later;
      assert WalkedFirst(g, known, before, seg, cs + later, Some(open), k);
    }
  }

  // ----- what has been met is reached -----

  lemma ChildEdge(g: Graph, known: set<Ref>, v: Value, cs: seq<Value>, i: nat)
    requires Children(g, known, v, cs) && i < |cs|
    ensures cs[i] == v || Edge(g, v, cs[i])
  {
    match v {
      case TableRef(t) =>
        var entries := g.tables[t].entries;
        var ks :| KeysSoFar(entries, {}, ks) && cs == At(entries, ks) + MetaChild(g.tables[t].meta, known);
        if i < |ks| {
          assert ks[i] in ks && entries[ks[i]] == cs[i];
        }
      case FunctionRef(f) =>
        assert !SelfUpvalue(g, f, i) ==> Edge(g, v, cs[i]);
    }
  }

  /** What is met in a visit of 'v', 'v' reaches. */
  lemma {:induction false} WalkedReaches(
      g: Graph, known: set<Ref>, before: seq<Value>, seg: seq<Value>, v: Value, stop: Option<seq<Value>>, x: Value)
    requires Walked(g, known, before, seg, v, stop) && x in seg
    ensures Reaches(g, v, x)
    decreases |seg|, 0, 0
  {
    hide Children, ReachesPlus, Edge, WalkedAll;
    if x != v {
      var cs :| Children(g, known, v, cs) && WalkedAll(g, known, before + [v], seg[1..], cs, Below(stop));
      var i := WalkedAllReaches(g, known, before + [v], seg[1..], cs, Below(stop), x);
      ChildEdge(g, known, v, cs, i);
      if cs[i] != v {
        EdgeThenReaches(g, v, cs[i], x);
      }
    }
  }

  lemma {:induction false} WalkedAllReaches(
      g: Graph, known: set<Ref>, before: seq<Value>, seg: seq<Value>, cs: seq<Value>, stop: Option<seq<Value>>,
      x: Value) returns (i: nat)
    requires WalkedAll(g, known, before, seg, cs, stop) && x in seg
    ensures i < |cs| && Reaches(g, cs[i], x)
    decreases |seg|, 1, |cs|
  {
    hide Walked, Reaches;
    i := 0;
    if stop.Some? && Walked(g, known, before, seg, cs[0], stop) {
      WalkedReaches(g, known, before, seg, cs[0], stop, x);
    } else {
      var k: nat :| WalkedFirst(g, known, before, seg, cs, stop, k);
      assert seg == seg[..k] + seg[k..];
      if x in seg[..k] {
        WalkedReaches(g, known, before, seg[..k], cs[0], None, x);
      } else {
        i := WalkedAllReaches(g, known, before + seg[..k], seg[k..], cs[1..], stop, x);
        i := i + 1;
      }
    }
  }

  /** Where the visit of the value at 'i' begins. */
  lemma {:induction false} VisitBegins(
      g: Graph, known: set<Ref>, before: seq<Value>, seg: seq<Value>, cs: seq<Value>, i: nat) returns (a: nat, b: nat)
    requires WalkedAll(g, known, before, seg, cs, None) && i < |cs|
    ensures a <= b <= |seg| && Walked(g, known, before + seg[..a], seg[a..b], cs[i], None)
    ensures forall x | x in seg[..a] :: ReachedFrom(g, cs[..i], x)
    decreases i
  {
    hide Walked, Reaches;
    var k: nat :| WalkedFirst(g, known, before, seg, cs, None, k);
    if i == 0 {
      a, b := 0, k;
      assert before + seg[..0] == before && seg[0..k] == seg[..k];
    } else {
      a, b := VisitBegins(g, known, before + seg[..k], seg[k..], cs[1..], i - 1);
      assert before + seg[..k] + seg[k..][..a] == before + seg[..k + a];
      assert seg[k..][a..b] == seg[k + a..k + b];
      var met := seg[..k + a];
      assert met == seg[..k] + seg[k..][..a];
      forall x | x in met ensures ReachedFrom(g, cs[..i], x) {
        if x in seg[..k] {
          WalkedReaches(g, known, before, seg[..k], cs[0], None, x);
          assert cs[..i][0] == cs[0];
        } else {
          var j :| 0 <= j < i - 1 && Reaches(g, cs[1..][..i - 1][j], x);
          assert cs[..i][j + 1] == cs[1..][..i - 1][j];
        }
      }
      a, b := k + a, k + b;
    }
  }

  // ----- the same from one order of first visits to a later one -----

  /** Between 'o' and 'o2' lies a visit of 'v'. */
  ghost predicate Visit(
      g: Graph, known: set<Ref>, o: seq<Value>, o2: seq<Value>, v: Value, stop: Option<seq<Value>>) {
    o <= o2 && Walked(g, known, o, o2[|o|..], v, stop)
  }

  /** Between 'o' and 'o2' lies a visit of 'v' that has come to 'cs' so far. */
  ghost predicate Search(
      g: Graph, known: set<Ref>, o: seq<Value>, o2: seq<Value>, v: Value, cs: seq<Value>, stop: Option<seq<Value>>) {
    o + [v] <= o2 && WalkedAll(g, known, o + [v], o2[|o| + 1..], cs, stop)
  }

  lemma SearchStarts(g: Graph, known: set<Ref>, o: seq<Value>, v: Value)
    ensures Search(g, known, o, o + [v], v, [], None)
  {
  }

  lemma SearchChild(g: Graph, known: set<Ref>, o: seq<Value>, o1: seq<Value>, o2: seq<Value>, v: Value,
                    cs: seq<Value>, c: Value, stop: Option<seq<Value>>)
    requires Search(g, known, o, o1, v, cs, None) && Visit(g, known, o1, o2, c, stop)
    ensures Search(g, known, o, o2, v, cs + [c], stop)
  {
    hide Walked, WalkedAll;
    var seg, more := o1[|o| + 1..], o2[|o1|..];
    assert o + [v] + seg == o1;
    assert o2[|o| + 1..] == seg + more;
    OneMoreWalked(g, known, o + [v], seg, cs, more, c, stop);
  }

  lemma SearchStops(g: Graph, known: set<Ref>, o: seq<Value>, o2: seq<Value>, v: Value,
                    cs: seq<Value>, later: seq<Value>, open: seq<Value>)
    requires Search(g, known, o, o2, v, cs, Some(open))
    ensures Search(g, known, o, o2, v, cs + later, Some(open))
  {
    hide WalkedAll;
    StoppedBefore(g, known, o + [v], o2[|o| + 1..], cs, later, open);
  }

  /** A search of all there is makes a visit. */
  lemma SearchEnds(g: Graph, known: set<Ref>, o: seq<Value>, o2: seq<Value>, v: Value,
                   cs: seq<Value>, stop: Option<seq<Value>>)
    requires Search(g, known, o, o2, v, cs, stop) && Children(g, known, v, cs) && v !in o
    ensures Visit(g, known, o, o2, v, if stop.Some? then Some([v] + stop.value) else None)
  {
    hide WalkedAll;
    assert o2[|o|..][1..] == o2[|o| + 1..];
    assert stop.Some? ==> ([v] + stop.value)[1..] == stop.value;
  }

  lemma NothingMet(g: Graph, known: set<Ref>, o: seq<Value>, v: Value, stop: Option<seq<Value>>)
    requires !Cached(v) || v in o
    requires if stop.Some? then stop.value == [] && (v.ThreadRef? || v.FunctionRef?) else !v.ThreadRef?
    ensures Visit(g, known, o, o, v, stop)
  {
  }

  // ----- listing keys -----

  lemma {:induction false} Listing(s: set<Value>) returns (ks: seq<Value>)
    ensures Distinct(ks) && forall k :: k in ks <==> k in s
    decreases s
  {
    ks := [];
    if s != {} {
      var x := Pick(s);
      var rest := Listing(s - {x});
      ks := [x] + rest;
      assert forall k :: k in ks <==> k == x || k in rest;
    }
  }

  lemma KeysMore(entries: map<Value, Value>, todo: set<Value>, ks: seq<Value>, k: Value)
    requires KeysSoFar(entries, todo, ks) && k in todo && k in entries
    ensures Basic(k) ==> KeysSoFar(entries, todo - {k}, ks + [k])
    ensures Basic(k) ==> At(entries, ks + [k]) == At(entries, ks) + [entries[k]]
    ensures !Basic(k) ==> KeysSoFar(entries, todo - {k}, ks)
  {
  }

  /** Whatever the order so far, there is one for the rest. */
  lemma KeysToCome(entries: map<Value, Value>, todo: set<Value>, ks: seq<Value>) returns (rest: seq<Value>)
    requires KeysSoFar(entries, todo, ks)
    ensures KeysSoFar(entries, {}, ks + rest) && (forall k | k in rest :: k in entries)
    ensures At(entries, ks + rest) == At(entries, ks) + At(entries, rest)
  {
    rest := Listing(set k | k in todo && k in entries && Basic(k));
    assert forall k :: k in ks + rest <==> k in ks || k in rest;
    forall i, j | 0 <= i < |ks| && 0 <= j < |rest| ensures ks[i] != rest[j] {
      assert ks[i] in ks && rest[j] in rest;
    }
  }

  lemma AllKeysCome(t: Table, known: set<Ref>, ks: seq<Value>)
    requires KeysSoFar(t.entries, {}, ks)
    ensures TableChildren(t, known, At(t.entries, ks) + MetaChild(t.meta, known))
  {
  }
}
