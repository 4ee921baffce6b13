/**
 What a caller of luaG_inter_copy (iw_lanes/tools.cpp) may rely on, for every heap and every order
 of traversal: the result is an isomorphic image of what the values reach, metatables come home,
 and upvalue cycles are refused.
 */
module CopyTheorems {
  import opened Basics
  import opened LuaGraph
  import opened DepthFirst
  import opened CopyWorld
  import opened CopySteps
  import opened InterCopy

  // ----- observing a heap -----

  datatype Step = Key(k: Value) | Metatable | Upvalue(i: nat)

  function Access(g: Graph, v: Value, step: Step): Option<Value> {
    match (v, step)
    case (TableRef(t), Key(k)) =>
      if t in g.tables && k in g.tables[t].entries then Some(g.tables[t].entries[k]) else None
    case (TableRef(t), Metatable) =>
      if t in g.tables && g.tables[t].meta.Some? then Some(TableRef(g.tables[t].meta.value)) else None
    case (FunctionRef(f), Upvalue(i)) =>
      if f in g.funcs && i < |g.funcs[f].upvalues| then Some(g.funcs[f].upvalues[i]) else None
    case _ => None
  }

  /** Where a path of accesses leads from 'v', if anywhere. */
  function Follow(g: Graph, v: Value, path: seq<Step>): Option<Value>
    decreases |path|
  {
    if path == [] then Some(v)
    else
      match Access(g, v, path[0])
      case None => None
      case Some(x) => Follow(g, x, path[1..])
  }

  // ----- the image of the values -----

  /** A copied metatable, or the very one that the target has known from the start. */
  ghost predicate MetaImage(w: World, w': World, m: Option<Ref>, m': Option<Ref>) {
    match m
    case None => m' == None
    case Some(t) =>
      if t in Known(w) then
        t in w.srcReg.idOf && w.srcReg.idOf[t] in w.dstReg.byId && m' == Some(w.dstReg.byId[w.srcReg.idOf[t]])
      else t in w'.tables && m' == Some(w'.tables[t])
  }

  ghost predicate TableImage(w: World, w': World, t: Ref) {
    && t in w.src.tables && t in w'.tables && w'.tables[t] in w'.dst.tables && w'.tables[t] !in w.dst.tables
    && EntriesCopied(w', w.src.tables[t].entries, w'.dst.tables[w'.tables[t]].entries)
    && MetaImage(w, w', w.src.tables[t].meta, w'.dst.tables[w'.tables[t]].meta)
  }

  ghost predicate FunctionImage(w: World, w': World, f: Ref) {
    FunctionCopied(w', f) && w'.funcs[f].copy !in w.dst.funcs
  }

  /** What a call has made of the values: every object met has a new copy of its own, which is complete. */
  ghost predicate Image(w: World, w': World, values: seq<Value>, copies: seq<Value>) {
    && w'.src == w.src
    && UpvaluesCopied(w', values, copies)
    && FromValues(w', values)
    && (forall t | t in w'.tables :: TableImage(w, w', t))
    && (forall f | f in w'.funcs :: FunctionImage(w, w', f))
    && (forall s, t | s in w'.tables && t in w'.tables && s != t :: w'.tables[s] != w'.tables[t])
    && (forall f, g | f in w'.funcs && g in w'.funcs && f != g && w'.funcs[f].Done? && w'.funcs[g].Done? ::
          w'.funcs[f].copy != w'.funcs[g].copy)
  }

  lemma MetaCopiedImage(w: World, w': World, m: Option<Ref>, m': Option<Ref>)
    requires Inv(w', w) && Grows(w, w') && MetaCopied(w', m, m')
    ensures MetaImage(w, w', m, m')
  {
    hide FinishOrder, MetOk, NoReentry, TableCacheOk, FunctionCacheOk, Closed, Allocated, Extends, NewCopies;
    if m.Some? && m.value !in Known(w) {
      UnknownMetaCached(w', w, m.value);
    }
  }

  lemma TableCopiedImage(w: World, w': World, t: Ref)
    requires Inv(w', w) && Grows(w, w') && TableCopied(w', t)
    ensures TableImage(w, w', t)
  {
    MetaCopiedImage(w, w', w'.src.tables[t].meta, w'.dst.tables[w'.tables[t]].meta);
    hide FinishOrder, MetOk, NoReentry, FunctionCacheOk, Closed, Allocated, Extends, NewCopies, MetaCopied, MetaImage,
         EntriesCopied, Bijection, NewIdsOk, SourceIdsOk, GrowsCache;
  }

  /** What InterCopy.InterCopy leaves behind when it succeeds is the image of its values. */
  lemma CopyIsImage(w: World, w': World, values: seq<Value>, copies: seq<Value>)
    requires CopiedAll(w, w', values, copies)
    ensures Image(w, w', values, copies)
  {
    CopiedAllParts(w, w', values, copies);
    hide Inv, Grows, Complete, CopiedAll, UpvaluesCopied, FromValues, TableImage, TableCopied, FunctionCopied;
    forall t | t in w'.tables ensures TableImage(w, w', t) {
      TableCopiedImage(w, w', t);
    }
  }

  lemma CopiedAllParts(w: World, w': World, values: seq<Value>, copies: seq<Value>)
    requires CopiedAll(w, w', values, copies)
    ensures Inv(w', w) && Grows(w, w') && UpvaluesCopied(w', values, copies)
    ensures FromValues(w', values) && w'.src == w.src
    ensures forall t | t in w'.tables :: TableCopied(w', t)
    ensures forall f | f in w'.funcs :: FunctionImage(w, w', f)
    ensures forall s, t | s in w'.tables && t in w'.tables && s != t :: w'.tables[s] != w'.tables[t]
    ensures forall f, g | f in w'.funcs && g in w'.funcs && f != g && w'.funcs[f].Done? && w'.funcs[g].Done? ::
              w'.funcs[f].copy != w'.funcs[g].copy
  {
    hide FinishOrder, MetOk, NoReentry, Closed, Allocated, Bijection, NewIdsOk, SourceIdsOk, Extends, GrowsCache,
         NewCopies, NewSourceIds, FromValues, UpvaluesCopied;
  }

  // ----- the copy answers as the original does -----

  /** A step that a copy answers: an entry at a basic key, an upvalue, or a metatable that the target has
      not known from the start. */
  ghost predicate Answered(w: World, v: Value, step: Step) {
    match step
    case Key(k) => Basic(k)
    case Metatable =>
      v.TableRef? && v.t in w.src.tables && w.src.tables[v.t].meta.Some? ==> w.src.tables[v.t].meta.value !in Known(w)
    case Upvalue(_) => true
  }

  ghost predicate AnsweredPath(w: World, v: Value, path: seq<Step>)
    decreases |path|
  {
    path != [] ==>
      && Answered(w, v, path[0])
      && match Access(w.src, v, path[0])
         case None => true
         case Some(x) => AnsweredPath(w, x, path[1..])
  }

  /** If the target has known no metatable of the source, every path of basic keys is answered. */
  lemma {:induction false} BasicPathAnswered(w: World, v: Value, path: seq<Step>)
    requires forall t | t in w.src.tables && w.src.tables[t].meta.Some? :: w.src.tables[t].meta.value !in Known(w)
    requires forall i | 0 <= i < |path| && path[i].Key? :: Basic(path[i].k)
    ensures AnsweredPath(w, v, path)
    decreases |path|
  {
    hide Known, Access;
    if path != [] && Access(w.src, v, path[0]).Some? {
      BasicPathAnswered(w, Access(w.src, v, path[0]).value, path[1..]);
    }
  }

  /** One access sees the copy exactly as it sees the source. */
  lemma AccessCopied(w: World, w': World, values: seq<Value>, copies: seq<Value>, v: Value, v': Value, step: Step)
    requires Image(w, w', values, copies) && Copied(w', v, v') && Answered(w, v, step)
    ensures Access(w.src, v, step).None? <==> Access(w'.dst, v', step).None?
    ensures Access(w.src, v, step).Some? ==>
              Copied(w', Access(w.src, v, step).value, Access(w'.dst, v', step).value)
  {
    hide FromValues, UpvaluesCopied, Known;
    match v {
      case TableRef(t) => assert TableImage(w, w', t);
      case FunctionRef(f) => FunctionAccessCopied(w, w', f, step);
      case _ =>
    }
  }

  lemma FunctionAccessCopied(w: World, w': World, f: Ref, step: Step)
    requires w'.src == w.src && FunctionCopied(w', f)
    ensures Access(w.src, FunctionRef(f), step).None? <==> Access(w'.dst, FunctionRef(w'.funcs[f].copy), step).None?
    ensures Access(w.src, FunctionRef(f), step).Some? ==>
              Copied(w', Access(w.src, FunctionRef(f), step).value,
                     Access(w'.dst, FunctionRef(w'.funcs[f].copy), step).value)
  {
  }

  /** The copy answers every path of basic keys, metatables and upvalues as the source does. */
  lemma {:induction false} FollowCopied(w: World, w': World, values: seq<Value>, copies: seq<Value>,
                                        v: Value, v': Value, path: seq<Step>)
    requires Image(w, w', values, copies) && Copied(w', v, v') && AnsweredPath(w, v, path)
    ensures Follow(w.src, v, path).None? <==> Follow(w'.dst, v', path).None?
    ensures Follow(w.src, v, path).Some? ==>
              Copied(w', Follow(w.src, v, path).value, Follow(w'.dst, v', path).value)
    decreases |path|
  {
    hide Image, Access, Answered;
    if path != [] {
      AccessCopied(w, w', values, copies, v, v', path[0]);
      if Access(w.src, v, path[0]).Some? {
        FollowCopied(w, w', values, copies, Access(w.src, v, path[0]).value, Access(w'.dst, v', path[0]).value,
                     path[1..]);
      }
    }
  }

  /** Sharing and cycles: two paths, from any two of the values, meet in one object of the copy if
      and only if they meet in one object of the source. */
  lemma SharingKept(w: World, w': World, values: seq<Value>, copies: seq<Value>,
                    i: nat, p: seq<Step>, j: nat, q: seq<Step>)
    requires Image(w, w', values, copies)
    requires i < |values| && j < |values| && AnsweredPath(w, values[i], p) && AnsweredPath(w, values[j], q)
    requires Follow(w.src, values[i], p).Some? && Follow(w.src, values[j], q).Some?
    requires Follow(w.src, values[i], p).value.TableRef? || Follow(w.src, values[i], p).value.FunctionRef?
    ensures |copies| == |values|
    ensures Follow(w'.dst, copies[i], p).Some? && Follow(w'.dst, copies[j], q).Some?
    ensures Follow(w.src, values[i], p) == Follow(w.src, values[j], q)
       <==> Follow(w'.dst, copies[i], p) == Follow(w'.dst, copies[j], q)
  {
    hide TableImage, FunctionImage, Follow, FromValues, AnsweredPath;
    FollowCopied(w, w', values, copies, values[i], copies[i], p);
    FollowCopied(w, w', values, copies, values[j], copies[j], q);
  }

  /** Entries at keys of other types are dropped: no path of the copy passes through one. */
  lemma OtherKeysDropped(w: World, w': World, values: seq<Value>, copies: seq<Value>, t: Ref, k: Value)
    requires Image(w, w', values, copies) && t in w'.tables && !Basic(k)
    ensures Access(w'.dst, TableRef(w'.tables[t]), Key(k)) == None
  {
    assert TableImage(w, w', t);
  }

  /** What is copied is new: a call shares no table and no function with anything older. */
  lemma CopiesAreNew(w: World, w': World, values: seq<Value>, copies: seq<Value>, i: nat, path: seq<Step>)
    requires Image(w, w', values, copies) && i < |values| && AnsweredPath(w, values[i], path)
    requires Follow(w.src, values[i], path).Some?
    ensures |copies| == |values| && Follow(w'.dst, copies[i], path).Some?
    ensures var x := Follow(w'.dst, copies[i], path).value;
            (x.TableRef? ==> x.t !in w.dst.tables) && (x.FunctionRef? ==> x.f !in w.dst.funcs)
  {
    hide Follow, FromValues, AnsweredPath, EntriesCopied, MetaImage, FunctionCopied;
    FollowCopied(w, w', values, copies, values[i], copies[i], path);
  }

  // ----- the objects copied are the objects reached -----

  /** The target knows no metatable of the graph that the values reach before the call. */
  ghost predicate MetatablesUnknown(w: World, values: seq<Value>) {
    forall t | ReachedFrom(w.src, values, TableRef(t)) && t in w.src.tables && w.src.tables[t].meta.Some? ::
      w.src.tables[t].meta.value !in Known(w)
  }

  lemma EdgeMet(w: World, w': World, values: seq<Value>, copies: seq<Value>, x: Value, y: Value)
    requires Image(w, w', values, copies) && MetatablesUnknown(w, values)
    requires Settled(w', x) && Edge(w.src, x, y)
    ensures Settled(w', y)
  {
    hide Known, ReachedFrom, UpvaluesCopied;
    match x {
      case TableRef(t) =>
        assert TableImage(w, w', t);
        if k :| k in w.src.tables[t].entries && Basic(k) && w.src.tables[t].entries[k] == y {
          assert Copied(w', y, w'.dst.tables[w'.tables[t]].entries[k]);
        }
      case FunctionRef(f) => UpvalueMet(w, w', f, y);
      case _ =>
    }
  }

  lemma UpvalueMet(w: World, w': World, f: Ref, y: Value)
    requires w'.src == w.src && FunctionCopied(w', f) && Edge(w.src, FunctionRef(f), y)
    ensures Settled(w', y)
  {
    var i :| 0 <= i < |w.src.funcs[f].upvalues| && !SelfUpvalue(w.src, f, i) && w.src.funcs[f].upvalues[i] == y;
    assert Copied(w', y, w'.dst.funcs[w'.funcs[f].copy].upvalues[i]);
  }

  lemma {:induction false} PathMet(w: World, w': World, values: seq<Value>, copies: seq<Value>, p: seq<Value>)
    requires Image(w, w', values, copies) && MetatablesUnknown(w, values)
    requires |p| > 0 && Settled(w', p[0]) && IsPath(w.src, p)
    ensures Settled(w', p[|p| - 1])
    decreases |p|
  {
    hide Image, MetatablesUnknown, Settled, Edge;
    if |p| > 1 {
      assert Edge(w.src, p[0], p[0 + 1]);
      EdgeMet(w, w', values, copies, p[0], p[1]);
      assert IsPath(w.src, p[1..]) by {
        forall i | 0 <= i < |p[1..]| - 1 ensures Edge(w.src, p[1..][i], p[1..][i + 1]) {
          assert Edge(w.src, p[i + 1], p[i + 1 + 1]);
        }
      }
      PathMet(w, w', values, copies, p[1..]);
    }
  }

  lemma ReachedMet(w: World, w': World, values: seq<Value>, copies: seq<Value>, i: nat, y: Value)
    requires Image(w, w', values, copies) && MetatablesUnknown(w, values)
    requires i < |values| && Reaches(w.src, values[i], y)
    ensures Settled(w', y)
  {
    hide MetatablesUnknown, TableImage, FunctionImage, FromValues;
    assert Copied(w', values[i], copies[i]);
    assert Settled(w', values[i]);
    if values[i] != y {
      var p :| Joins(w.src, p, values[i], y);
      PathMet(w, w', values, copies, p);
    }
  }

  /** The tables and functions copied are exactly those reached; no thread is among them. */
  lemma CopiedIsReached(w: World, w': World, values: seq<Value>, copies: seq<Value>)
    requires Image(w, w', values, copies) && MetatablesUnknown(w, values)
    ensures forall t :: t in w'.tables <==> ReachedFrom(w.src, values, TableRef(t))
    ensures forall f :: f in w'.funcs <==> ReachedFrom(w.src, values, FunctionRef(f))
    ensures forall th :: !ReachedFrom(w.src, values, ThreadRef(th))
  {
    hide MetatablesUnknown, Reaches, TableImage, FunctionImage, UpvaluesCopied;
    forall y | ReachedFrom(w.src, values, y) ensures Settled(w', y) {
      var i :| 0 <= i < |values| && Reaches(w.src, values[i], y);
      ReachedMet(w, w', values, copies, i, y);
    }
    hide ReachedFrom;
    assert forall t :: ReachedFrom(w.src, values, TableRef(t)) ==> Settled(w', TableRef(t));
    assert forall f :: ReachedFrom(w.src, values, FunctionRef(f)) ==> Settled(w', FunctionRef(f));
    assert forall th :: ReachedFrom(w.src, values, ThreadRef(th)) ==> Settled(w', ThreadRef(th));
  }

  // ----- metatables across calls -----

  /** A table whose metatable the target knows from the start gets that very table, not a copy of its own. */
  lemma KnownMetatableReused(w: World, w': World, values: seq<Value>, copies: seq<Value>, t: Ref)
    requires Image(w, w', values, copies) && t in w'.tables && t in w.src.tables
    requires w.src.tables[t].meta.Some? && w.src.tables[t].meta.value in Known(w)
    ensures w'.tables[t] in w'.dst.tables
    ensures w'.dst.tables[w'.tables[t]].meta == Some(w.dstReg.byId[w.srcReg.idOf[w.src.tables[t].meta.value]])
  {
    assert TableImage(w, w', t);
  }

  /** Copying a table over and its copy back gives it the metatable object it had at first, whatever
      both states did in between other than forget registered metatables. */
  lemma MetatableComesHome(a: World, a': World, values: seq<Value>, copies: seq<Value>, i: nat,
                           b: World, b': World, values2: seq<Value>, copies2: seq<Value>, j: nat)
    requires CopiedAll(a, a', values, copies) && i < |values| && values[i].TableRef?
    requires CopiedAll(b, b', values2, copies2) && j < |values2| && |copies| == |values| && values2[j] == copies[i]
    requires GrowsRegistry(a'.srcReg, b.dstReg) && GrowsRegistry(a'.dstReg, b.srcReg)
    requires copies[i].TableRef? && copies[i].t in a'.dst.tables && copies[i].t in b.src.tables
    requires b.src.tables[copies[i].t].meta == a'.dst.tables[copies[i].t].meta
    ensures |copies2| == |values2| && values[i].t in a.src.tables
    ensures copies2[j].TableRef? && copies2[j].t in b'.dst.tables
    ensures b'.dst.tables[copies2[j].t].meta == a.src.tables[values[i].t].meta
  {
    hide FinishOrder, NewIdsOk, Extends, Closed, Allocated, NewCopies, NewSourceIds, EntriesCopied, FromValues, MetOk,
         NoReentry, SourceIdsOk, TableCacheOk, FunctionCacheOk;
    assert Copied(a', values[i], copies[i]) && Copied(b', values2[j], copies2[j]);
    assert TableCopied(a', values[i].t) && TableCopied(b', copies[i].t);
  }

  /** Whether or not a call succeeds: a table that it has registered under a new id is the copy of the
      metatable with that id, and is complete unless the call has stopped in that metatable. */
  lemma RegisteredMetatables(w: World, w': World, values: seq<Value>, error: Option<CopyError>, open: seq<Value>,
                             id: nat)
    requires CallOutcome(w, w', values, error, open) && id in w'.dstReg.byId && id !in w.dstReg.byId
    ensures id in w'.srcReg.byId && w'.srcReg.byId[id] in w'.tables
    ensures var m := w'.srcReg.byId[id];
            && w'.dstReg.byId[id] == w'.tables[m]
            && (TableCopied(w', m) <==> TableRef(m) !in open)
  {
    hide FinishOrder, MetOk, NoReentry, OrderOk, FunctionCacheOk, Closed, Allocated, Extends, Bijection, SourceIdsOk,
         WalkedAll, Stuck, Justified, TableCopied, FunctionCopied, Grows;
  }

  // ----- upvalue cycles -----

  /** 'g' is an upvalue of 'f', other than a Lua closure's own. */
  ghost predicate UpvalueEdge(g: Graph, f: Ref, h: Ref) {
    f in g.funcs && exists i :: 0 <= i < |g.funcs[f].upvalues| && g.funcs[f].upvalues[i] == FunctionRef(h)
                                && !SelfUpvalue(g, f, i)
  }

  ghost predicate UpvaluePath(g: Graph, p: seq<Ref>) {
    forall i | 0 <= i < |p| - 1 :: UpvalueEdge(g, p[i], p[i + 1])
  }

  lemma UpvalueFinishedBefore(w: World, i: nat, h: Ref)
    requires FinishOrder(w.src, w.funcs, w.finished) && i < |w.finished| && UpvalueEdge(w.src, w.finished[i], h)
    ensures exists j :: 0 <= j < i && w.finished[j] == h
  {
    assert UpvaluesBefore(w.src, w.finished, i);
    var order := w.finished[..i];
    assert h in order;
    var j :| 0 <= j < |order| && order[j] == h;
    assert w.finished[j] == h;
  }

  /** Along upvalues the position of finishing only falls. */
  lemma {:induction false} PathFinishedBefore(w: World, i: nat, p: seq<Ref>)
    requires FinishOrder(w.src, w.funcs, w.finished) && i < |w.finished| && |p| >= 2 && p[0] == w.finished[i]
    requires UpvaluePath(w.src, p)
    ensures exists j :: 0 <= j < i && w.finished[j] == p[|p| - 1]
    decreases |p|
  {
    hide FinishOrder, UpvalueEdge;
    assert UpvalueEdge(w.src, p[0], p[0 + 1]);
    UpvalueFinishedBefore(w, i, p[1]);
    if |p| > 2 {
      var j :| 0 <= j < i && w.finished[j] == p[1];
      assert UpvaluePath(w.src, p[1..]) by {
        forall k | 0 <= k < |p[1..]| - 1 ensures UpvalueEdge(w.src, p[1..][k], p[1..][k + 1]) {
          assert UpvalueEdge(w.src, p[k + 1], p[k + 1 + 1]);
        }
      }
      PathFinishedBefore(w, j, p[1..]);
    }
  }

  function First(s: seq<Ref>, x: Ref): (i: nat)
    requires x in s
    ensures i < |s| && s[i] == x && forall j | 0 <= j < i :: s[j] != x
  {
    if s[0] == x then 0 else 1 + First(s[1..], x)
  }

  /** A call that succeeds has met no function that leads back to itself through upvalues alone. */
  lemma NoUpvalueCycle(w: World, w': World, values: seq<Value>, copies: seq<Value>, p: seq<Ref>)
    requires CopiedAll(w, w', values, copies)
    requires |p| >= 2 && UpvaluePath(w.src, p) && p[0] in w'.funcs
    ensures p[|p| - 1] != p[0]
  {
    hide NewIdsOk, Bijection, Extends, Closed, Allocated, NewCopies, NewSourceIds, GrowsCache, UpvaluePath;
    assert FunctionCopied(w', p[0]);
    var i := First(w'.finished, p[0]);
    PathFinishedBefore(w', i, p);
  }

  // ----- re-entered functions -----

  /** The function met at position 'j' leads back to itself through objects that had not been met then. */
  ghost predicate ReentryAt(g: Graph, known: set<Ref>, order: seq<Value>, j: nat) {
    j < |order| && order[j].FunctionRef? && FreshPath(g, known, MetOf(order[..j]), order[j], order[j])
  }

  /** A call fails for recursion exactly if it meets a function that leads back to itself through objects
      not met before it. */
  lemma RecursionIff(w: World, w': World, values: seq<Value>, error: Option<CopyError>, open: seq<Value>)
    requires CallOutcome(w, w', values, error, open) && error != Some(UnsupportedType)
    ensures error == Some(RecursiveUpvalues) <==> exists j: nat :: ReentryAt(w.src, Known(w), w'.order, j)
  {
    StuckIsReentry(w, w');
    hide Inv, Stuck, ReentryAt, Justified, WalkedAll, Grows, Halted;
  }

  lemma StuckIsReentry(w: World, w': World)
    requires Inv(w', w)
    ensures Stuck(w.src, Known(w), w'.met) <==> exists j: nat :: ReentryAt(w.src, Known(w), w'.order, j)
  {
    hide FinishOrder, NoReentry, TableCacheOk, FunctionCacheOk, Closed, Allocated, Extends, Bijection, NewIdsOk,
         SourceIdsOk, FreshPath, MetOf;
    var g, known, order := w.src, Known(w), w'.order;
    if f :| f in w'.met && FreshPath(g, known, w'.met[f], FunctionRef(f), FunctionRef(f)) {
      assert FunctionRef(f) in order;
      var j :| 0 <= j < |order| && order[j] == FunctionRef(f);
      assert ReentryAt(g, known, order, j);
    }
    if j: nat :| ReentryAt(g, known, order, j) {
      assert order[j].f in w'.met;
    }
  }

  /** The interior of a path of edges leads to its end. */
  lemma {:induction false} SuffixReaches(
      g: Graph, known: set<Ref>, met: LuaGraph.Met, p: seq<Value>, x: Value, y: Value, i: nat)
    requires FreshJoins(g, known, met, p, x, y) && i < |p| - 1
    ensures ReachesPlus(g, p[i], y)
    decreases |p| - i
  {
    assert CopyEdge(g, known, p[i], p[i + 1]);
    hide CopyEdge, Edge, ReachesPlus;
    CopyEdgeIsEdge(g, known, p[i], p[i + 1]);
    if i + 1 < |p| - 1 {
      SuffixReaches(g, known, met, p, x, y, i + 1);
      EdgeThenReaches(g, p[i], p[i + 1], y);
    } else {
      EdgeReaches(g, p[i], y);
    }
  }

  /** A path back to 'f' is as fresh when only objects that do not lead to 'f' have been met. */
  lemma StillFresh(g: Graph, known: set<Ref>, order: seq<Value>, f: Value)
    requires FreshPath(g, known, LuaGraph.Met({}, {}), f, f)
    requires forall k | 0 <= k < |order| :: order[k] != f && !ReachesPlus(g, order[k], f)
    ensures FreshPath(g, known, MetOf(order), f, f)
  {
    var p :| FreshJoins(g, known, LuaGraph.Met({}, {}), p, f, f);
    hide CopyEdge, ReachesPlus;
    forall i | 0 < i < |p| - 1 ensures Unmet(MetOf(order), p[i]) {
      SuffixReaches(g, known, LuaGraph.Met({}, {}), p, f, f, i);
      assert p[i] !in order;
    }
    assert FreshJoins(g, known, MetOf(order), p, f, f);
  }

  /** Whatever else is copied with it: a function that leads back to itself, and is not reached from the
      values before it, makes the call fail. */
  lemma FunctionOnCycleFails(w: World, w': World, values: seq<Value>, error: Option<CopyError>, open: seq<Value>,
                             i: nat)
    requires CallOutcome(w, w', values, error, open) && i < |values| && values[i].FunctionRef?
    requires FreshPath(w.src, Known(w), LuaGraph.Met({}, {}), values[i], values[i])
    requires !ReachedFrom(w.src, values[..i], values[i])
    ensures error.Some?
  {
    if error.None? {
      CallSucceeds(w, w', values, open);
      hide CallOutcome, Inv, WalkedAll, FreshPath, ReachedFrom, ReachesPlus, ReentryAt, Stuck;
      var j := CycleMet(w.src, Known(w), w'.order, values, i);
      StuckIsReentry(w, w');
    }
  }

  lemma CallSucceeds(w: World, w': World, values: seq<Value>, open: seq<Value>)
    requires CallOutcome(w, w', values, None, open)
    ensures Inv(w', w) && WalkedAll(w.src, Known(w), [], w'.order, values, None)
    ensures !Stuck(w.src, Known(w), w'.met)
  {
  }

  /** A function that no earlier value reaches is met first in its own visit, and is fresh then. */
  lemma CycleMet(g: Graph, known: set<Ref>, order: seq<Value>, values: seq<Value>, i: nat) returns (j: nat)
    requires WalkedAll(g, known, [], order, values, None) && i < |values| && values[i].FunctionRef?
    requires FreshPath(g, known, LuaGraph.Met({}, {}), values[i], values[i])
    requires !ReachedFrom(g, values[..i], values[i])
    ensures ReentryAt(g, known, order, j)
  {
    hide WalkedAll, FreshPath, ReachesPlus, Children;
    var b;
    j, b := VisitBegins(g, known, [], order, values, i);
    assert [] + order[..j] == order[..j];
    assert order[j..b][0] == values[i];
    forall k | 0 <= k < j ensures order[..j][k] != values[i] && !ReachesPlus(g, order[..j][k], values[i]) {
      assert order[..j][k] in order[..j];
      var c :| 0 <= c < i && Reaches(g, values[..i][c], order[..j][k]);
      assert !Reaches(g, values[..i][c], values[i]);
      NotReached(g, values[..i][c], order[..j][k], values[i]);
    }
    StillFresh(g, known, order[..j], values[i]);
  }

  lemma NotReached(g: Graph, x: Value, y: Value, z: Value)
    requires Reaches(g, x, y) && !Reaches(g, x, z)
    ensures y != z && !ReachesPlus(g, y, z)
  {
    hide ReachesPlus;
    if ReachesPlus(g, y, z) && x != y {
      ReachesPlusTrans(g, x, y, z);
    }
  }

  // ----- where a copy comes in -----

  /** A table that holds a function which has the table as upvalue. */
  ghost predicate CyclicPair(g: Graph) {
    && g.tables == map[0 := Table(map[Boolean(true) := FunctionRef(1)], None)]
    && g.funcs == map[1 := Function(LuaCode(0), [TableRef(0)])]
  }

  lemma PairEdges(g: Graph, known: set<Ref>, x: Value, y: Value)
    requires CyclicPair(g)
    ensures Edge(g, x, y) <==> (x == TableRef(0) && y == FunctionRef(1)) || (x == FunctionRef(1) && y == TableRef(0))
    ensures CopyEdge(g, known, x, y) <==> Edge(g, x, y)
  {
    assert g.tables[0].entries[Boolean(true)] == FunctionRef(1);
    assert g.funcs[1].upvalues[0] == TableRef(0);
  }

  lemma PairPaths(g: Graph, known: set<Ref>, met: LuaGraph.Met)
    requires CyclicPair(g)
    ensures FreshPath(g, known, met, FunctionRef(1), FunctionRef(1)) <==> 0 !in met.tables
  {
    var t, f := TableRef(0), FunctionRef(1);
    PairEdges(g, known, f, t);
    PairEdges(g, known, t, f);
    hide CopyEdge, Edge;
    if 0 !in met.tables {
      assert FreshJoins(g, known, met, [f, t, f], f, f);
    }
    if p :| FreshJoins(g, known, met, p, f, f) {
      assert CopyEdge(g, known, p[0], p[0 + 1]);
      PairEdges(g, known, f, p[1]);
      assert Unmet(met, p[1]);
    }
  }

  lemma PairReachesNoThread(g: Graph, v: Value, th: Ref)
    requires CyclicPair(g) && !v.ThreadRef?
    ensures !Reaches(g, v, ThreadRef(th))
  {
    if p :| Joins(g, p, v, ThreadRef(th)) {
      assert Edge(g, p[|p| - 2], p[|p| - 2 + 1]);
      PairEdges(g, {}, p[|p| - 2], p[|p| - 1]);
      assert false;
    }
  }

  /** The function alone cannot be copied, the table alone can, though both carry the same cycle. */
  lemma EntranceMatters(w: World, w': World, v: Value, error: Option<CopyError>, open: seq<Value>)
    requires CallOutcome(w, w', [v], error, open) && CyclicPair(w.src)
    ensures v == FunctionRef(1) ==> error == Some(RecursiveUpvalues)
    ensures v == TableRef(0) ==> error == None
  {
    hide CallOutcome, CyclicPair, ReentryAt, FreshPath, ReachedFrom;
    if v == FunctionRef(1) {
      PairIsSupported(w, w', v, error, open);
      PairPaths(w.src, Known(w), LuaGraph.Met({}, {}));
      NoneReaches(w.src, v);
      assert [v][..0] == [];
      FunctionOnCycleFails(w, w', [v], error, open, 0);
    }
    if v == TableRef(0) {
      PairIsSupported(w, w', v, error, open);
      RecursionIff(w, w', [v], error, open);
      forall j: nat ensures !ReentryAt(w.src, Known(w), w'.order, j) {
        TableMetFirst(w, w', error, open, j);
      }
    }
  }

  lemma NoneReaches(g: Graph, v: Value)
    ensures !ReachedFrom(g, [], v)
  {
  }

  lemma PairIsSupported(w: World, w': World, v: Value, error: Option<CopyError>, open: seq<Value>)
    requires CallOutcome(w, w', [v], error, open) && CyclicPair(w.src) && !v.ThreadRef?
    ensures error.None? || error == Some(RecursiveUpvalues)
  {
    hide CyclicPair, Inv, Grows, Reaches, ReachesPlus, Stuck, WalkedAll, Halted;
    forall th ensures !Reaches(w.src, v, ThreadRef(th)) {
      PairReachesNoThread(w.src, v, th);
    }
  }

  lemma TableMetFirst(w: World, w': World, error: Option<CopyError>, open: seq<Value>, j: nat)
    requires CallOutcome(w, w', [TableRef(0)], error, open) && CyclicPair(w.src)
    ensures !ReentryAt(w.src, Known(w), w'.order, j)
  {
    if j < |w'.order| && w'.order[j].FunctionRef? {
      TableBefore(w, w', error, open, j);
      PairPaths(w.src, Known(w), MetOf(w'.order[..j]));
    }
  }

  lemma TableBefore(w: World, w': World, error: Option<CopyError>, open: seq<Value>, j: nat)
    requires CallOutcome(w, w', [TableRef(0)], error, open) && CyclicPair(w.src)
    requires j < |w'.order| && w'.order[j].FunctionRef?
    ensures w'.order[j] == FunctionRef(1) && 0 in MetOf(w'.order[..j]).tables
  {
    hide FinishOrder, NoReentry, TableCacheOk, Closed, Allocated, Extends, Bijection, NewIdsOk, SourceIdsOk, Grows,
         Stuck, Justified, Walked, WalkedAll, Halted;
    FirstIsFirst(w.src, Known(w), [], w'.order, [TableRef(0)], Stop(error.Some?, open));
    assert w'.order[j] in w'.order;
    assert w'.order[..j][0] == TableRef(0);
  }

  /** The two calls. */
  method CopyFromCyclicPair(L: LuaState, L2: LuaState, ids: MtIdCounter) returns (error: Option<CopyError>)
    requires L != L2 && L.Valid(ids.lastId) && L2.Valid(ids.lastId)
    requires CyclicPair(L.graph) && |L.stack| == 1
    modifies L`reg, L2, ids
    ensures L.stack == [FunctionRef(1)] ==> error == Some(RecursiveUpvalues)
    ensures L.stack == [TableRef(0)] ==> error == None && |L2.stack| == |old(L2.stack)| + 1
  {
    hide CyclicPair, CallOutcome, CopiedAll;
    ghost var w, w', open;
    error, w, w', open := InterCopy.InterCopy(L, L2, ids, 1);
    assert L.stack[0..] == [L.stack[0]];
    EntranceMatters(w, w', L.stack[0], error, open);
  }

  // ----- the order of upvalues -----

  const OUTER := FunctionRef(1)
  const INNER := FunctionRef(2)
  const LEFT := TableRef(3)
  const RIGHT := TableRef(4)

  /** An outer function with two tables as upvalues; both hold an inner function, which has the right one
      as upvalue. */
  ghost predicate Forked(g: Graph, ups: seq<Value>) {
    && g.tables == map[3 := Table(map[Boolean(true) := INNER], None), 4 := Table(map[Boolean(true) := INNER], None)]
    && g.funcs == map[1 := Function(LuaCode(0), ups), 2 := Function(LuaCode(1), [RIGHT])]
    && (ups == [LEFT, RIGHT] || ups == [RIGHT, LEFT])
  }

  lemma ForkEdges(g: Graph, known: set<Ref>, ups: seq<Value>, x: Value, y: Value)
    requires Forked(g, ups)
    ensures Edge(g, x, y) <==>
            (x == OUTER && y in ups) || ((x == LEFT || x == RIGHT) && y == INNER) || (x == INNER && y == RIGHT)
    ensures CopyEdge(g, known, x, y) <==> Edge(g, x, y)
  {
    assert g.tables[3].entries[Boolean(true)] == INNER && g.tables[4].entries[Boolean(true)] == INNER;
    assert g.funcs[2].upvalues[0] == RIGHT;
    assert g.funcs[1].upvalues == ups && forall i | 0 <= i < |ups| :: !SelfUpvalue(g, 1, i);
  }

  /** Nothing leads back to the outer function; the inner one is in a cycle with the right table alone. */
  lemma ForkPaths(g: Graph, known: set<Ref>, ups: seq<Value>, met: LuaGraph.Met)
    requires Forked(g, ups)
    ensures !FreshPath(g, known, met, OUTER, OUTER)
    ensures FreshPath(g, known, met, INNER, INNER) <==> 4 !in met.tables
  {
    ForkEdges(g, known, ups, INNER, RIGHT);
    ForkEdges(g, known, ups, RIGHT, INNER);
    if p :| FreshJoins(g, known, met, p, OUTER, OUTER) {
      assert CopyEdge(g, known, p[|p| - 2], p[|p| - 2 + 1]);
      ForkEdges(g, known, ups, p[|p| - 2], p[|p| - 1]);
      assert false;
    }
    hide CopyEdge, Edge;
    if 4 !in met.tables {
      assert FreshJoins(g, known, met, [INNER, RIGHT, INNER], INNER, INNER);
    }
    if p :| FreshJoins(g, known, met, p, INNER, INNER) {
      assert CopyEdge(g, known, p[0], p[0 + 1]);
      ForkEdges(g, known, ups, INNER, p[1]);
      assert Unmet(met, p[1]);
    }
  }

  lemma ForkReachesNoThread(g: Graph, ups: seq<Value>, th: Ref)
    requires Forked(g, ups)
    ensures !Reaches(g, OUTER, ThreadRef(th))
  {
    if p :| Joins(g, p, OUTER, ThreadRef(th)) {
      assert Edge(g, p[|p| - 2], p[|p| - 2 + 1]);
      ForkEdges(g, {}, ups, p[|p| - 2], p[|p| - 1]);
      assert false;
    }
  }

  lemma ForkIsSupported(w: World, w': World, ups: seq<Value>, error: Option<CopyError>, open: seq<Value>)
    requires CallOutcome(w, w', [OUTER], error, open) && Forked(w.src, ups)
    ensures error.None? || error == Some(RecursiveUpvalues)
  {
    hide Forked, Inv, Grows, Reaches, ReachesPlus, Stuck, WalkedAll, Halted;
    forall th ensures !Reaches(w.src, OUTER, ThreadRef(th)) {
      ForkReachesNoThread(w.src, ups, th);
    }
  }

  /** The outer function is met first, then its first upvalue. */
  lemma ForkBegins(g: Graph, known: set<Ref>, order: seq<Value>, ups: seq<Value>, stop: Option<seq<Value>>)
    returns (below: Option<seq<Value>>)
    requires WalkedAll(g, known, [], order, [OUTER], stop) && Forked(g, ups)
    ensures |order| >= 2 && order[0] == OUTER && order[1] == ups[0] && below.Some? == stop.Some?
    ensures WalkedAll(g, known, [OUTER], order[1..], ups, below)
  {
    hide Walked, WalkedAll;
    OnlyOne(g, known, [], order, OUTER, stop);
    WalkBegins(g, known, [], order, OUTER, stop);
    var cs := WalkInside(g, known, [], order, OUTER, stop);
    assert [] + [OUTER] == [OUTER];
    below := Below(stop);
    FirstIsFirst(g, known, [OUTER], order[1..], ups, below);
  }

  /** With the left table first, the inner function is met before the right table. */
  lemma LeftFirst(g: Graph, known: set<Ref>, order: seq<Value>, ups: seq<Value>)
    requires WalkedAll(g, known, [], order, [OUTER], None) && Forked(g, ups) && ups[0] == LEFT
    ensures ReentryAt(g, known, order, 2)
  {
    hide Walked, WalkedAll, FreshPath;
    var _ := ForkBegins(g, known, order, ups, None);
    var k := FirstVisit(g, known, [OUTER], order[1..], ups);
    var seg := order[1..][..k];
    WalkBegins(g, known, [OUTER], seg, LEFT, None);
    var cs := WalkInside(g, known, [OUTER], seg, LEFT, None);
    OneEntry(g.tables[3], known, Boolean(true), cs);
    assert cs == [INNER];
    FirstIsFirst(g, known, [OUTER] + [LEFT], seg[1..], cs, None);
    assert order[2] == INNER && order[..2] == [OUTER, LEFT];
    ForkPaths(g, known, ups, MetOf(order[..2]));
  }

  /** Upvalues are visited in order, each with all it leads to before the next: the outer function can be
      copied if the right table is its first upvalue, and not if the left one is. */
  lemma UpvalueOrderMatters(w: World, w': World, ups: seq<Value>, error: Option<CopyError>, open: seq<Value>)
    requires CallOutcome(w, w', [OUTER], error, open) && Forked(w.src, ups)
    ensures error == if ups[0] == LEFT then Some(RecursiveUpvalues) else None
  {
    ForkIsSupported(w, w', ups, error, open);
    RecursionIff(w, w', [OUTER], error, open);
    hide Inv, Grows, Stuck, Justified, Halted, WalkedAll, ReentryAt, FreshPath, Forked;
    if ups[0] == LEFT {
      if error.None? {
        LeftFirst(w.src, Known(w), w'.order, ups);
      }
    } else {
      forall j: nat ensures !ReentryAt(w.src, Known(w), w'.order, j) {
        RightFirst(w, w', ups, Stop(error.Some?, open), j);
      }
    }
  }

  lemma RightFirst(w: World, w': World, ups: seq<Value>, stop: Option<seq<Value>>, j: nat)
    requires Inv(w', w) && WalkedAll(w.src, Known(w), [], w'.order, [OUTER], stop)
    requires Forked(w.src, ups) && ups[0] == RIGHT
    ensures !ReentryAt(w.src, Known(w), w'.order, j)
  {
    hide Inv, WalkedAll, FreshPath, Known;
    var order := w'.order;
    if j < |order| && order[j].FunctionRef? {
      MetIsSource(w', w, j);
      var _ := ForkBegins(w.src, Known(w), order, ups, stop);
      ForkPaths(w.src, Known(w), ups, MetOf(order[..j]));
      assert order[j] == OUTER || order[j] == INNER;
      if order[j] == INNER {
        assert order[..j][1] == RIGHT;
        assert 4 in MetOf(order[..j]).tables;
      }
    }
  }

  lemma MetIsSource(w: World, base: World, j: nat)
    requires Inv(w, base) && j < |w.order| && w.order[j].FunctionRef?
    ensures w.order[j].f in base.src.funcs
  {
    hide FinishOrder, NoReentry, TableCacheOk, Closed, Allocated, Extends, Bijection, NewIdsOk, SourceIdsOk;
    assert w.order[j] in w.order;
  }

  // ----- a call that stops in a metatable -----

  /** Table 1 has metatable 2, which holds table 3 that has it as metatable too; the metatable of the
      metatable holds a thread. */
  ghost predicate ThreadBehindMeta(g: Graph) {
    && g.tables == map[1 := Table(map[], Some(2)),
                       2 := Table(map[Boolean(true) := TableRef(3)], Some(4)),
                       3 := Table(map[], Some(2)),
                       4 := Table(map[Boolean(true) := ThreadRef(0)], None)]
    && g.funcs == map[]
  }

  lemma OnlyMeta(g: Graph, known: set<Ref>, t: Ref, cs: seq<Value>)
    requires Children(g, known, TableRef(t), cs) && g.tables[t].entries == map[]
    ensures cs == MetaChild(g.tables[t].meta, known)
  {
    var ks :| KeysSoFar(map[], {}, ks) && cs == At(map[], ks) + MetaChild(g.tables[t].meta, known);
    if ks != [] {
      HeadIn(ks);
    }
  }

  lemma HeadIn<T>(s: seq<T>)
    requires s != []
    ensures s[0] in s
  {
  }

  lemma Reopened(v: Value, stop: Option<seq<Value>>)
    requires stop.Some? ==> stop.value != [] && stop.value[0] == v
    ensures stop == if stop.Some? then Some([v] + Below(stop).value) else None
  {
    if stop.Some? {
      assert stop.value == [v] + stop.value[1..];
    }
  }

  lemma BehindParts(g: Graph, known: set<Ref>, t: Ref, cs: seq<Value>)
    requires ThreadBehindMeta(g) && 2 !in known && 4 !in known && Children(g, known, TableRef(t), cs)
    ensures t == 1 || t == 3 ==> cs == [TableRef(2)]
    ensures t == 2 ==> cs == [TableRef(3), TableRef(4)]
    ensures t == 4 ==> cs == [ThreadRef(0)]
  {
    hide KeysSoFar;
    if t == 1 || t == 3 {
      OnlyMeta(g, known, t, cs);
    } else {
      OneEntry(g.tables[t], known, Boolean(true), cs);
    }
  }

  /** The inner table is complete, as its metatable has been met. */
  lemma InnerWalked(g: Graph, known: set<Ref>, seg: seq<Value>, stop: Option<seq<Value>>)
    requires ThreadBehindMeta(g) && 2 !in known && 4 !in known
    requires Walked(g, known, [TableRef(1), TableRef(2)], seg, TableRef(3), stop)
    ensures seg == [TableRef(3)] && stop.None?
  {
    var before := [TableRef(1), TableRef(2)];
    var cs := WalkInside(g, known, before, seg, TableRef(3), stop);
    WalkBegins(g, known, before, seg, TableRef(3), stop);
    BehindParts(g, known, 3, cs);
    hide WalkedAll, ThreadBehindMeta;
    OnlyOne(g, known, before + [TableRef(3)], seg[1..], TableRef(2), Below(stop));
    assert (before + [TableRef(3)])[1] == TableRef(2);
  }

  /** The walk stops at the thread. */
  lemma ThreadWalked(g: Graph, known: set<Ref>, before: seq<Value>, seg: seq<Value>, stop: Option<seq<Value>>)
    requires ThreadBehindMeta(g) && 2 !in known && 4 !in known && TableRef(4) !in before
    requires Walked(g, known, before, seg, TableRef(4), stop)
    ensures seg == [TableRef(4)] && stop == Some([TableRef(4)])
  {
    var cs := WalkInside(g, known, before, seg, TableRef(4), stop);
    WalkBegins(g, known, before, seg, TableRef(4), stop);
    BehindParts(g, known, 4, cs);
    hide WalkedAll, ThreadBehindMeta;
    OnlyOne(g, known, before + [TableRef(4)], seg[1..], ThreadRef(0), Below(stop));
    Reopened(TableRef(4), stop);
    assert [TableRef(4)] + [] == [TableRef(4)];
  }

  /** A call for table 1 meets the tables in this order and stops in 1, 2 and 4. */
  lemma StopsBehindMeta(g: Graph, known: set<Ref>, order: seq<Value>, stop: Option<seq<Value>>)
    requires ThreadBehindMeta(g) && 2 !in known && 4 !in known
    requires WalkedAll(g, known, [], order, [TableRef(1)], stop)
    ensures order == [TableRef(1), TableRef(2), TableRef(3), TableRef(4)]
    ensures stop == Some([TableRef(1), TableRef(2), TableRef(4)])
  {
    hide WalkedAll, Walked, ThreadBehindMeta, Children;
    OnlyOne(g, known, [], order, TableRef(1), stop);
    WalkBegins(g, known, [], order, TableRef(1), stop);
    var cs1 := WalkInside(g, known, [], order, TableRef(1), stop);
    BehindParts(g, known, 1, cs1);
    var seg, stop2 := order[1..], Below(stop);
    assert [] + [TableRef(1)] == [TableRef(1)];
    OnlyOne(g, known, [TableRef(1)], seg, TableRef(2), stop2);
    WalkBegins(g, known, [TableRef(1)], seg, TableRef(2), stop2);
    var cs2 := WalkInside(g, known, [TableRef(1)], seg, TableRef(2), stop2);
    BehindParts(g, known, 2, cs2);
    assert [TableRef(1)] + [TableRef(2)] == [TableRef(1), TableRef(2)];
    BehindMeta(g, known, seg[1..], Below(stop2));
    Reopened(TableRef(2), stop2);
    Reopened(TableRef(1), stop);
    assert [TableRef(1)] + ([TableRef(2)] + [TableRef(4)]) == [TableRef(1), TableRef(2), TableRef(4)];
    assert seg == [seg[0]] + seg[1..] && order == [order[0]] + seg;
  }

  lemma BehindMeta(g: Graph, known: set<Ref>, seg: seq<Value>, stop: Option<seq<Value>>)
    requires ThreadBehindMeta(g) && 2 !in known && 4 !in known
    requires WalkedAll(g, known, [TableRef(1), TableRef(2)], seg, [TableRef(3), TableRef(4)], stop)
    ensures seg == [TableRef(3), TableRef(4)] && stop == Some([TableRef(4)])
  {
    hide Walked, ThreadBehindMeta;
    var before, cs := [TableRef(1), TableRef(2)], [TableRef(3), TableRef(4)];
    if k: nat :| WalkedFirst(g, known, before, seg, cs, stop, k) {
      InnerWalked(g, known, seg[..k], None);
      assert cs[1..] == [TableRef(4)];
      OnlyOne(g, known, before + seg[..k], seg[k..], TableRef(4), stop);
      ThreadWalked(g, known, before + seg[..k], seg[k..], stop);
      assert seg == seg[..k] + seg[k..];
    } else {
      InnerWalked(g, known, seg, stop);
    }
  }

  lemma NoFunctionsNoRecursion(g: Graph, v: Value)
    requires g.funcs == map[]
    ensures !Justified(g, v, RecursiveUpvalues)
  {
    hide Reaches;
    forall f, p ensures !Joins(g, p, FunctionRef(f), FunctionRef(f)) {
      if |p| >= 2 && p[0] == FunctionRef(f) {
        assert !Edge(g, p[0], p[0 + 1]);
      }
    }
  }

  /** An id that the source has given since is new to the target. */
  lemma NewSourceIdNew(w: World, w': World, m: Ref)
    requires Inv(w', w) && m in w'.srcReg.idOf && m !in w.srcReg.idOf
    ensures w'.srcReg.idOf[m] !in w.dstReg.byId
  {
    hide FinishOrder, MetOk, NoReentry, OrderOk, FunctionCacheOk, TableCacheOk, Closed, Allocated, Extends, NewIdsOk;
  }

  lemma StopKnown(w: World, w': World, error: Option<CopyError>, open: seq<Value>)
    requires CallOutcome(w, w', [TableRef(1)], error, open)
    requires ThreadBehindMeta(w.src) && 2 !in Known(w) && 4 !in Known(w)
    ensures error == Some(UnsupportedType) && Inv(w', w) && Halted(w, w', open)
    ensures w'.order == [TableRef(1), TableRef(2), TableRef(3), TableRef(4)]
    ensures open == [TableRef(1), TableRef(2), TableRef(4)]
  {
    hide Inv, Grows, WalkedAll, Stuck, Justified, Halted, Known;
    StopsBehindMeta(w.src, Known(w), w'.order, Stop(error.Some?, open));
    forall i | 0 <= i < 1 ensures !Justified(w.src, [TableRef(1)][i], RecursiveUpvalues) {
      NoFunctionsNoRecursion(w.src, [TableRef(1)][i]);
    }
  }

  /** The metatable is registered at the target, though the call has stopped in it. */
  lemma HalfRegistered(w: World, w': World, error: Option<CopyError>, open: seq<Value>)
    requires CallOutcome(w, w', [TableRef(1)], error, open)
    requires ThreadBehindMeta(w.src) && w.srcReg.idOf == map[]
    ensures error == Some(UnsupportedType)
    ensures 2 in w'.tables && w'.tables[2] in w'.dst.tables && !TableCopied(w', 2) && 2 in w'.srcReg.idOf
    ensures w'.srcReg.idOf[2] in w'.dstReg.byId && w'.dstReg.byId[w'.srcReg.idOf[2]] == w'.tables[2]
  {
    StopKnown(w, w', error, open);
    MetIn(w', w);
    assert TableCopied(w', 3) && !TableCopied(w', 2) by {
      hide Inv, TableCopied, FunctionCopied;
      assert w'.tables.Keys == {1, 2, 3, 4};
    }
    hide Halted, CallOutcome, Inv, EntriesCopied;
    assert w'.src == w.src;
    NewSourceIdNew(w, w', 2);
    NewIdIsCopy(w', w, 2);
  }

  lemma MetIn(w: World, base: World)
    requires Inv(w, base) && w.order == [TableRef(1), TableRef(2), TableRef(3), TableRef(4)]
    ensures w.tables.Keys == {1, 2, 3, 4} && w.src == base.src
    ensures w.tables[2] in w.dst.tables
  {
    hide FinishOrder, MetOk, NoReentry, FunctionCacheOk, Closed, Allocated, Extends, Bijection, NewIdsOk, SourceIdsOk;
    assert forall t :: t in w.tables <==> TableRef(t) in w.order;
  }

  /** Once the target knows the metatable, the inner table leads to nothing else. */
  lemma InnerSucceeds(w: World, w': World, error: Option<CopyError>, open: seq<Value>)
    requires CallOutcome(w, w', [TableRef(3)], error, open)
    requires ThreadBehindMeta(w.src) && 2 in Known(w)
    ensures error == None
  {
    var g, known, stop := w.src, Known(w), Stop(error.Some?, open);
    hide Inv, Grows, Stuck, Justified, Halted, Known, Walked;
    OnlyOne(g, known, [], w'.order, TableRef(3), stop);
    var cs := WalkInside(g, known, [], w'.order, TableRef(3), stop);
    OnlyMeta(g, known, 3, cs);
  }

  /** A call that stops in a metatable can leave it half copied and registered; a later call for a table
      with that metatable succeeds, and gives its copy the half copied one. */
  method CopyAfterStop(L: LuaState, L2: LuaState, ids: MtIdCounter)
    returns (error: Option<CopyError>, error2: Option<CopyError>, ghost w: World)
    requires L != L2 && L.Valid(ids.lastId) && L2.Valid(ids.lastId)
    requires ThreadBehindMeta(L.graph) && L.reg.idOf == map[] && L.stack == [TableRef(1)]
    modifies L, L2, ids
    ensures error == Some(UnsupportedType) && error2 == None
    ensures w.src == old(L.graph) && 2 in w.tables && w.tables[2] in w.dst.tables && !TableCopied(w, 2)
    ensures |L2.stack| == |old(L2.stack)| + 1
    ensures var c := L2.stack[|old(L2.stack)|];
            && c.TableRef? && c.t in L2.graph.tables && L2.graph.tables[c.t].meta == Some(w.tables[2])
            && w.tables[2] in L2.graph.tables && L2.graph.tables[w.tables[2]] == w.dst.tables[w.tables[2]]
  {
    hide CallOutcome, CopiedAll, ThreadBehindMeta, Closed, Allocated, Bijection;
    ghost var w0, open;
    error, w0, w, open := InterCopy.InterCopy(L, L2, ids, 1);
    assert L.stack[0..] == [TableRef(1)];
    HalfRegistered(w0, w, error, open);
    InnerIn(L.graph);
    L.stack := [TableRef(3)];
    ghost var w2, w2', open2;
    error2, w2, w2', open2 := InterCopy.InterCopy(L, L2, ids, 1);
    assert L.stack[0..] == [TableRef(3)];
    InnerSucceeds(w2, w2', error2, open2);
    assert L2.stack == old(L2.stack) + [L2.stack[|old(L2.stack)|]];
    InnerCopied(w2, w2', L2.stack[|old(L2.stack)|]);
  }

  lemma InnerIn(g: Graph)
    requires ThreadBehindMeta(g)
    ensures 3 in g.tables && g.tables[3].meta == Some(2)
  {
  }

  lemma InnerCopied(w: World, w': World, c: Value)
    requires CopiedAll(w, w', [TableRef(3)], [c]) && 3 in w.src.tables && w.src.tables[3].meta == Some(2)
    requires 2 in w.srcReg.idOf && w.srcReg.idOf[2] in w.dstReg.byId
    ensures c.TableRef? && c.t in w'.dst.tables
    ensures w'.dst.tables[c.t].meta == Some(w.dstReg.byId[w.srcReg.idOf[2]])
  {
    hide CopiedAll, EntriesCopied, FunctionImage, FromValues, Inv, Grows;
    CopyIsImage(w, w', [TableRef(3)], [c]);
    assert Copied(w', [TableRef(3)][0], [c][0]);
    assert TableImage(w, w', 3);
  }
}
