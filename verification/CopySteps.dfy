/**
 The single writes of a copy (iw_lanes/tools.cpp) as functions on its world, each with the lemma
 that the traversal's invariants survive it.
 */
module CopySteps {
  import opened Basics
  import opened LuaGraph
  import opened CopyWorld

  const EMPTY_TABLE := Table(map[], None)

  function SetTable(w: World, t: Ref, node: Table): World {
    w.(dst := w.dst.(tables := w.dst.tables[t := node]))
  }

  function SetFunction(w: World, f: Ref, node: Function): World {
    w.(dst := w.dst.(funcs := w.dst.funcs[f := node]))
  }

  /** lua_newtable at the target, tied to the cache. */
  function CacheNewTable(w: World, s: Ref): World {
    w.(dst := w.dst.(tables := w.dst.tables[w.dst.nextRef := EMPTY_TABLE], nextRef := w.dst.nextRef + 1),
       tables := w.tables[s := w.dst.nextRef], order := w.order + [TableRef(s)])
  }

  function NewFunction(w: World, node: Function): World {
    w.(dst := w.dst.(funcs := w.dst.funcs[w.dst.nextRef := node], nextRef := w.dst.nextRef + 1))
  }

  function NewUserdata(w: World, node: Userdata): World {
    w.(dst := w.dst.(udata := w.dst.udata[w.dst.nextRef := node], nextRef := w.dst.nextRef + 1))
  }

  /** A fresh id for a metatable of the source. */
  function AssignId(w: World, m: Ref): World {
    w.(lastId := w.lastId + 1, srcReg := Register(w.srcReg, m, w.lastId + 1))
  }

  function RegisterCopy(w: World, m: Ref): World
    requires m in w.srcReg.idOf && m in w.tables
  {
    w.(dstReg := Register(w.dstReg, w.tables[m], w.srcReg.idOf[m]))
  }

  function MarkFunction(w: World, f: Ref): World {
    w.(funcs := w.funcs[f := InProgress], met := w.met[f := Met(w.tables.Keys, w.funcs.Keys)],
       order := w.order + [FunctionRef(f)])
  }

  function FinishFunction(w: World, f: Ref, copy: Ref): World {
    w.(funcs := w.funcs[f := Done(copy)], finished := w.finished + [f])
  }

  // ----- the frame of one table or function in work -----

  /** Since 'e', only the table 's' has been cached and is not yet complete. */
  ghost predicate FillingTable(e: World, w: World, base: World, s: Ref) {
    && Inv(w, base)
    && Grows(e, w)
    && s in w.tables && s !in e.tables && w.tables[s] !in e.dst.tables
    && Complete(e, w, {s}, {})
    && NewReachable(e, w, TableRef(s))
    && SameInProgress(e.funcs, w.funcs)
    && CallStackReaches(e.src, Known(base), e.funcs, e.met, TableRef(s))
    && UnmetByStack(e.funcs, e.met, TableRef(s))
  }

  /** Since 'e', only the function 'f' has been cached and is not yet complete. */
  ghost predicate FillingFunction(e: World, w: World, base: World, f: Ref) {
    && Inv(w, base)
    && Grows(e, w)
    && f in w.funcs && w.funcs[f].InProgress? && f !in e.funcs
    && Complete(e, w, {}, {f})
    && NewReachable(e, w, FunctionRef(f))
    && SameInProgress(MarkFunction(e, f).funcs, w.funcs)
    && f in w.met && w.met[f] == Met(e.tables.Keys, e.funcs.Keys)
    && CallStackReaches(e.src, Known(base), e.funcs, e.met, FunctionRef(f))
    && UnmetByStack(e.funcs, e.met, FunctionRef(f))
  }

  // ----- tables -----

  lemma TableCacheGrows(tables: map<Ref, Ref>, src: set<Ref>, dst: set<Ref>, was: set<Ref>, s: Ref, copy: Ref)
    requires TableCacheOk(tables, src, dst, was) && s in src && s !in tables && copy !in dst && copy !in was
    ensures TableCacheOk(tables[s := copy], src, dst + {copy}, was)
  {
  }

  lemma NewIdsOkMono(was: Registry, dstReg: Registry, srcReg: Registry, tables: map<Ref, Ref>,
                     srcReg': Registry, tables': map<Ref, Ref>)
    requires NewIdsOk(was, dstReg, srcReg, tables)
    requires Submap(srcReg.byId, srcReg'.byId) && Submap(tables, tables')
    ensures NewIdsOk(was, dstReg, srcReg', tables')
  {
  }

  lemma TableMet(order: seq<Value>, tables: set<Ref>, funcs: set<Ref>, met: map<Ref, Met>, s: Ref)
    requires OrderOk(order, tables, funcs, met) && s !in tables
    ensures OrderOk(order + [TableRef(s)], tables + {s}, funcs, met)
  {
    var order' := order + [TableRef(s)];
    forall i | 0 <= i < |order'| && order'[i].FunctionRef?
      ensures order'[i].f in met && met[order'[i].f] == MetOf(order'[..i])
    {
      assert order'[..i] == order[..i];
    }
  }

  lemma FunctionMet(order: seq<Value>, tables: set<Ref>, funcs: set<Ref>, met: map<Ref, Met>, f: Ref)
    requires OrderOk(order, tables, funcs, met) && f !in funcs
    ensures OrderOk(order + [FunctionRef(f)], tables, funcs + {f}, met[f := Met(tables, funcs)])
  {
    var order' := order + [FunctionRef(f)];
    forall i | 0 <= i < |order'| && order'[i].FunctionRef?
      ensures (i == |order| || order'[i].f in met)
      ensures (if i == |order| then Met(tables, funcs) else met[order'[i].f]) == MetOf(order'[..i])
    {
      assert order'[..i] == order[..i];
      if i == |order| {
        assert order[..i] == order;
        AllMet(order, tables, funcs, met);
      }
    }
    assert forall i | 0 <= i < |order| && order[i].FunctionRef? :: order[i] in order && order[i].f != f;
  }

  lemma AllMet(order: seq<Value>, tables: set<Ref>, funcs: set<Ref>, met: map<Ref, Met>)
    requires OrderOk(order, tables, funcs, met)
    ensures MetOf(order) == Met(tables, funcs)
  {
    forall t ensures t in MetOf(order).tables <==> t in tables {
      assert TableRef(t) in order <==> t in tables;
    }
    forall f ensures f in MetOf(order).funcs <==> f in funcs {
      assert FunctionRef(f) in order <==> f in funcs;
    }
  }

  lemma NewTableInv(w: World, base: World, s: Ref)
    requires Inv(w, base) && s in w.src.tables && s !in w.tables
    ensures Inv(CacheNewTable(w, s), base)
  {
    hide FinishOrder, FunctionCacheOk, TableCacheOk, Bijection, NewIdsOk, OrderOk, NoReentry, SourceIdsOk;
    TableMet(w.order, w.tables.Keys, w.funcs.Keys, w.met, s);
    var w' := CacheNewTable(w, s);
    assert w'.tables.Keys == w.tables.Keys + {s};
    var copy := w.dst.nextRef;
    assert copy !in w.dst.tables;
    assert w'.dst.tables.Keys == w.dst.tables.Keys + {copy};
    TableCacheGrows(w.tables, w.src.tables.Keys, w.dst.tables.Keys, base.dst.tables.Keys, s, copy);
    BijectionMono(w.dstReg, w.dst.tables.Keys, w'.dst.tables.Keys, w.lastId, w.lastId);
    NewIdsOkMono(base.dstReg, w.dstReg, w.srcReg, w.tables, w.srcReg, w'.tables);
    ClosedGrows(w.dst, w'.dst);
  }

  lemma NewTableGrows(w: World, s: Ref)
    requires s !in w.tables && w.dst.nextRef !in w.dst.tables
    ensures Grows(w, CacheNewTable(w, s)) && Complete(w, CacheNewTable(w, s), {s}, {})
    ensures NewReachable(w, CacheNewTable(w, s), TableRef(s))
  {
  }

  lemma NewTableKeeps(w: World, base: World, s: Ref)
    requires Inv(w, base) && s in w.src.tables && s !in w.tables
    requires CallStackReaches(w.src, Known(base), w.funcs, w.met, TableRef(s))
    ensures FillingTable(w, CacheNewTable(w, s), base, s)
    ensures Unvisited(CacheNewTable(w, s)) < Unvisited(w)
  {
    hide Inv, Grows, Complete, NewReachable, UnmetByStack, CallStackReaches, Unvisited;
    NewTableInv(w, base, s);
    NewTableUnmet(w, base, s);
    NewTableGrows(w, s);
    UnvisitedShrinks(w, CacheNewTable(w, s));
  }

  lemma NewTableUnmet(w: World, base: World, s: Ref)
    requires Inv(w, base) && s !in w.tables
    ensures w.dst.nextRef !in w.dst.tables && UnmetByStack(w.funcs, w.met, TableRef(s))
  {
    hide Bijection, NewIdsOk, FinishOrder, TableCacheOk, FunctionCacheOk, Closed, SourceIdsOk, NoReentry, OrderOk;
  }

  lemma SetTableInv(w: World, base: World, t: Ref, node: Table)
    requires Inv(w, base) && t in w.dst.tables && t !in base.dst.tables && TableIn(w.dst, node)
    ensures Inv(SetTable(w, t, node), base)
  {
    hide Bijection, NewIdsOk, FinishOrder, TableCacheOk, FunctionCacheOk;
    assert SetTable(w, t, node).dst.tables.Keys == w.dst.tables.Keys;
    ClosedGrows(w.dst, SetTable(w, t, node).dst);
  }

  /** Other tables do not see the rewriting of 't'. */
  lemma CompleteSetTable(e: World, w: World, s: Ref, node: Table)
    requires Complete(e, w, {s}, {}) && s in w.tables
    requires forall x | x in w.tables && x != s :: w.tables[x] != w.tables[s]
    ensures Complete(e, SetTable(w, w.tables[s], node), {s}, {})
  {
    var w' := SetTable(w, w.tables[s], node);
    forall x | x in w'.tables && x !in e.tables && x !in {s} ensures TableCopied(w', x) {
      TableCopiedMono(w, w', x);
    }
    forall f | f in w'.funcs && f !in e.funcs ensures FunctionCopied(w', f) {
      FunctionCopiedMono(w, w', f);
    }
  }

  /** Rewriting the one table in work disturbs nothing else. */
  lemma SetTableKeeps(e: World, w: World, base: World, s: Ref, node: Table)
    requires FillingTable(e, w, base, s) && TableIn(w.dst, node)
    ensures FillingTable(e, SetTable(w, w.tables[s], node), base, s)
  {
    hide Bijection, NewIdsOk, FinishOrder, FunctionCacheOk, Closed, AllReachable, SameInProgress, Allocated, TableIn;
    SetTableInv(w, base, w.tables[s], node);
    CompleteSetTable(e, w, s, node);
  }

  /** A registry only grows under a new pair of an unknown table and an unknown id. */
  lemma RegisterKeeps(reg: Registry, heap: set<Ref>, lastId: nat, t: Ref, id: nat)
    requires Bijection(reg, heap, lastId) && t in heap && 1 <= id <= lastId
    requires (t in reg.idOf && reg.idOf[t] == id) || (t !in reg.idOf && id !in reg.byId)
    ensures Bijection(Register(reg, t, id), heap, lastId)
    ensures Submap(reg.idOf, Register(reg, t, id).idOf) && Submap(reg.byId, Register(reg, t, id).byId)
  {
  }

  lemma BijectionMono(reg: Registry, heap: set<Ref>, heap': set<Ref>, lastId: nat, lastId': nat)
    requires Bijection(reg, heap, lastId) && lastId <= lastId' && heap <= heap'
    ensures Bijection(reg, heap', lastId')
  {
  }

  lemma FreshIdKeeps(reg: Registry, heap: set<Ref>, lastId: nat, m: Ref)
    requires Bijection(reg, heap, lastId) && m in heap && m !in reg.idOf
    ensures Bijection(Register(reg, m, lastId + 1), heap, lastId + 1)
    ensures GrowsRegistry(reg, Register(reg, m, lastId + 1))
  {
    assert lastId + 1 !in reg.byId;
    BijectionMono(reg, heap, heap, lastId, lastId + 1);
    RegisterKeeps(reg, heap, lastId + 1, m, lastId + 1);
  }

  lemma AssignIdInv(w: World, base: World, m: Ref)
    requires Inv(w, base) && m in w.src.tables && m !in w.srcReg.idOf
    ensures Inv(AssignId(w, m), base) && GrowsRegistry(w.srcReg, AssignId(w, m).srcReg)
  {
    hide Bijection, NewIdsOk, FinishOrder, TableCacheOk, FunctionCacheOk, Extends, Closed, Allocated;
    FreshIdKeeps(w.srcReg, w.src.tables.Keys, w.lastId, m);
    BijectionMono(w.dstReg, w.dst.tables.Keys, w.dst.tables.Keys, w.lastId, w.lastId + 1);
    NewIdsOkMono(base.dstReg, w.dstReg, w.srcReg, w.tables, AssignId(w, m).srcReg, w.tables);
  }

  lemma AssignIdKeeps(e: World, w: World, base: World, s: Ref, m: Ref)
    requires FillingTable(e, w, base, s) && m in w.src.tables && m !in w.srcReg.idOf
    ensures FillingTable(e, AssignId(w, m), base, s)
  {
    AssignIdInv(w, base, m);
    GrowsCacheKeeps(e, w, AssignId(w, m), s);
  }

  lemma GrowsCacheKeeps(e: World, w: World, w': World, s: Ref)
    requires Grows(e, w) && Complete(e, w, {s}, {})
    requires w'.src == w.src && w'.dst == w.dst && w'.tables == w.tables && w'.funcs == w.funcs && GrowsCache(w, w')
    requires w'.met == w.met && w'.order == w.order
    requires NewSourceIds(w.srcReg, w.lastId, w'.srcReg)
    ensures Grows(e, w') && Complete(e, w', {s}, {})
  {
    forall x | x in w'.tables && x !in e.tables && x !in {s} ensures TableCopied(w', x) {
      TableCopiedMono(w, w', x);
    }
    forall f | f in w'.funcs && f !in e.funcs ensures FunctionCopied(w', f) {
      FunctionCopiedMono(w, w', f);
    }
  }

  /** An id that is new at the target can only have been given to the copy of its own metatable. */
  lemma NewIdIsCopy(w: World, base: World, m: Ref)
    requires Inv(w, base) && m in w.srcReg.idOf && m in w.tables
    requires w.srcReg.idOf[m] !in base.dstReg.byId
    ensures w.srcReg.idOf[m] in w.dstReg.byId ==> w.dstReg.byId[w.srcReg.idOf[m]] == w.tables[m]
    ensures w.tables[m] in w.dstReg.idOf ==> w.dstReg.idOf[w.tables[m]] == w.srcReg.idOf[m]
  {
  }

  lemma RegisterCopyInv(w: World, base: World, m: Ref)
    requires Inv(w, base) && m in w.srcReg.idOf && m in w.tables
    requires w.srcReg.idOf[m] !in base.dstReg.byId
    ensures Inv(RegisterCopy(w, m), base) && GrowsRegistry(w.dstReg, RegisterCopy(w, m).dstReg)
  {
    NewIdIsCopy(w, base, m);
    RegisterKeeps(w.dstReg, w.dst.tables.Keys, w.lastId, w.tables[m], w.srcReg.idOf[m]);
  }

  lemma RegisterCopyKeeps(e: World, w: World, base: World, s: Ref, m: Ref)
    requires FillingTable(e, w, base, s) && m in w.srcReg.idOf && m in w.tables
    requires w.srcReg.idOf[m] !in base.dstReg.byId
    ensures FillingTable(e, RegisterCopy(w, m), base, s)
  {
    RegisterCopyInv(w, base, m);
    GrowsCacheKeeps(e, w, RegisterCopy(w, m), s);
  }

  lemma NewUserdataKeeps(w: World, base: World, node: Userdata)
    requires Inv(w, base)
    ensures Inv(NewUserdata(w, node), base) && Grows(w, NewUserdata(w, node))
    ensures Complete(w, NewUserdata(w, node), {}, {})
  {
    hide Bijection, NewIdsOk, FinishOrder, TableCacheOk, FunctionCacheOk;
    assert w.dst.nextRef !in w.dst.udata;
    ClosedGrows(w.dst, NewUserdata(w, node).dst);
  }

  // ----- functions -----

  lemma MarkInv(w: World, base: World, f: Ref)
    requires Inv(w, base) && f in w.src.funcs && f !in w.funcs
    ensures Inv(MarkFunction(w, f), base)
  {
    hide OrderOk, Bijection, NewIdsOk, TableCacheOk, Closed, Allocated, Extends, SourceIdsOk, FinishOrder,
         FunctionCacheOk, MetOk, NoReentry, Known;
    FunctionMet(w.order, w.tables.Keys, w.funcs.Keys, w.met, f);
    MarkCache(w.src, w.funcs, w.finished, f, w.dst.funcs.Keys, base.dst.funcs.Keys);
    MarkMet(w.src, Known(base), w.funcs, w.met, f, w.tables.Keys);
    assert MarkFunction(w, f).funcs.Keys == w.funcs.Keys + {f};
  }

  lemma MarkMet(g: Graph, known: set<Ref>, funcs: map<Ref, CachedFunction>, met: map<Ref, Met>, f: Ref,
                tables: set<Ref>)
    requires MetOk(met, tables, funcs.Keys) && NoReentry(g, known, funcs, met) && f !in funcs
    ensures MetOk(met[f := Met(tables, funcs.Keys)], tables, funcs.Keys + {f})
    ensures NoReentry(g, known, funcs[f := InProgress], met[f := Met(tables, funcs.Keys)])
  {
    hide FreshPath;
  }

  lemma MarkCache(g: Graph, funcs: map<Ref, CachedFunction>, finished: seq<Ref>, f: Ref, dst: set<Ref>, was: set<Ref>)
    requires FunctionCacheOk(funcs, g.funcs.Keys, dst, was) && FinishOrder(g, funcs, finished)
    requires f !in funcs && f in g.funcs
    ensures FunctionCacheOk(funcs[f := InProgress], g.funcs.Keys, dst, was)
    ensures FinishOrder(g, funcs[f := InProgress], finished)
  {
    hide UpvaluesBefore;
  }

  lemma MarkKeeps(w: World, base: World, f: Ref)
    requires Inv(w, base) && f in w.src.funcs && f !in w.funcs
    requires CallStackReaches(w.src, Known(base), w.funcs, w.met, FunctionRef(f))
    ensures FillingFunction(w, MarkFunction(w, f), base, f)
    ensures Unvisited(MarkFunction(w, f)) < Unvisited(w)
  {
    hide Inv, Grows, Complete, NewReachable, UnmetByStack, CallStackReaches, Unvisited, TableCopied, FunctionCopied;
    MarkInv(w, base, f);
    MarkGrows(w, base, f);
    UnvisitedShrinks(w, MarkFunction(w, f));
  }

  lemma MarkGrows(w: World, base: World, f: Ref)
    requires Inv(w, base) && f !in w.funcs
    ensures Grows(w, MarkFunction(w, f)) && Complete(w, MarkFunction(w, f), {}, {f})
    ensures NewReachable(w, MarkFunction(w, f), FunctionRef(f)) && UnmetByStack(w.funcs, w.met, FunctionRef(f))
  {
    hide Bijection, NewIdsOk, FinishOrder, TableCacheOk, FunctionCacheOk, Closed, Allocated, SourceIdsOk, NoReentry,
         TableCopied, FunctionCopied;
    assert MarkFunction(w, f).funcs.Keys - w.funcs.Keys == {f};
  }

  lemma NewFunctionInv(w: World, base: World, node: Function)
    requires Inv(w, base) && FunctionIn(w.dst, node)
    ensures Inv(NewFunction(w, node), base)
  {
    hide Bijection, NewIdsOk, FinishOrder, TableCacheOk;
    ClosedGrows(w.dst, NewFunction(w, node).dst);
    assert w.dst.nextRef !in w.dst.funcs;
    assert NewFunction(w, node).dst.funcs.Keys == w.dst.funcs.Keys + {w.dst.nextRef};
  }

  lemma NewFunctionKeeps(e: World, w: World, base: World, f: Ref, node: Function)
    requires FillingFunction(e, w, base, f) && FunctionIn(w.dst, node)
    ensures FillingFunction(e, NewFunction(w, node), base, f)
    ensures OwnCopy(e, NewFunction(w, node), base, w.dst.nextRef)
  {
    hide Bijection, NewIdsOk, FinishOrder, TableCacheOk, Closed, AllReachable, SameInProgress, MetOk, OrderOk,
         NoReentry, SourceIdsOk, CallStackReaches, UnmetByStack, Complete;
    assert w.dst.nextRef !in w.dst.funcs;
    NewFunctionInv(w, base, node);
    FunctionFrameKeeps(e, w, NewFunction(w, node), f);
  }

  lemma FunctionFrameKeeps(e: World, w: World, w': World, f: Ref)
    requires Grows(e, w) && Complete(e, w, {}, {f})
    requires w'.src == w.src && w'.tables == w.tables && w'.funcs == w.funcs && GrowsCache(w, w')
    requires w'.srcReg == w.srcReg && w'.met == w.met && w'.order == w.order
    requires w'.dst.tables == w.dst.tables && w'.dst.udata == w.dst.udata && Submap(e.dst.funcs, w'.dst.funcs)
    requires forall g | g in w.funcs && w.funcs[g].Done? && w.funcs[g].copy in w.dst.funcs ::
               w.funcs[g].copy in w'.dst.funcs && w'.dst.funcs[w.funcs[g].copy] == w.dst.funcs[w.funcs[g].copy]
    ensures Grows(e, w') && Complete(e, w', {}, {f})
  {
    forall x | x in w'.tables && x !in e.tables ensures TableCopied(w', x) {
      TableCopiedMono(w, w', x);
    }
    forall g | g in w'.funcs && g !in e.funcs && g !in {f} ensures FunctionCopied(w', g) {
      FunctionCopiedMono(w, w', g);
    }
  }

  /** 'copy' belongs to the function in work: it is new, and no finished function uses it. */
  ghost predicate OwnCopy(e: World, w: World, base: World, copy: Ref) {
    && copy in w.dst.funcs && copy !in e.dst.funcs && copy !in base.dst.funcs
    && forall g | g in w.funcs && w.funcs[g].Done? :: w.funcs[g].copy != copy
  }

  lemma SetFunctionInv(w: World, base: World, copy: Ref, node: Function)
    requires Inv(w, base) && copy in w.dst.funcs && copy !in base.dst.funcs && FunctionIn(w.dst, node)
    ensures Inv(SetFunction(w, copy, node), base)
  {
    hide Bijection, NewIdsOk, FinishOrder, TableCacheOk, FunctionCacheOk;
    ClosedGrows(w.dst, SetFunction(w, copy, node).dst);
    assert SetFunction(w, copy, node).dst.funcs.Keys == w.dst.funcs.Keys;
  }

  lemma SetFunctionKeeps(e: World, w: World, base: World, f: Ref, copy: Ref, node: Function)
    requires FillingFunction(e, w, base, f) && OwnCopy(e, w, base, copy) && FunctionIn(w.dst, node)
    ensures FillingFunction(e, SetFunction(w, copy, node), base, f)
    ensures OwnCopy(e, SetFunction(w, copy, node), base, copy)
  {
    hide Inv, Complete, AllReachable, SameInProgress, CallStackReaches, UnmetByStack, FunctionIn, GrowsRegistry,
         NewSourceIds;
    SetFunctionInv(w, base, copy, node);
    FunctionFrameKeeps(e, w, SetFunction(w, copy, node), f);
  }

  /** The upvalues of a finished copy: its own reference for a self-upvalue, copies otherwise. */
  ghost predicate UpvaluesWired(w: World, f: Ref, copy: Ref, ups: seq<Value>)
    requires f in w.src.funcs
  {
    && |ups| <= |w.src.funcs[f].upvalues|
    && forall i | 0 <= i < |ups| ::
         if SelfUpvalue(w.src, f, i) then ups[i] == FunctionRef(copy)
         else Copied(w, w.src.funcs[f].upvalues[i], ups[i])
  }

  lemma FinishInv(w: World, base: World, f: Ref, copy: Ref)
    requires Inv(w, base) && f in w.funcs && w.funcs[f].InProgress? && OwnCopy(base, w, base, copy)
    requires UpvaluesWired(w, f, copy, w.dst.funcs[copy].upvalues)
    requires |w.dst.funcs[copy].upvalues| == |w.src.funcs[f].upvalues|
    requires f in w.met && !FreshPath(w.src, Known(base), w.met[f], FunctionRef(f), FunctionRef(f))
    ensures Inv(FinishFunction(w, f, copy), base)
  {
    FinishKeepsOrder(w, f, copy);
    assert FunctionCacheOk(w.funcs[f := Done(copy)], w.src.funcs.Keys, w.dst.funcs.Keys, base.dst.funcs.Keys);
  }

  lemma CompleteFinish(e: World, w: World, f: Ref, copy: Ref)
    requires Complete(e, w, {}, {f}) && f in w.funcs && w.funcs[f].InProgress?
    requires f in w.src.funcs && copy in w.dst.funcs && w.dst.funcs[copy].code == w.src.funcs[f].code
    requires UpvaluesWired(w, f, copy, w.dst.funcs[copy].upvalues)
    requires |w.dst.funcs[copy].upvalues| == |w.src.funcs[f].upvalues|
    ensures Complete(e, FinishFunction(w, f, copy), {}, {})
  {
    var w' := FinishFunction(w, f, copy);
    assert GrowsCache(w, w');
    forall x | x in w'.tables && x !in e.tables ensures TableCopied(w', x) {
      TableCopiedMono(w, w', x);
    }
    forall g | g in w'.funcs && g !in e.funcs ensures FunctionCopied(w', g) {
      if g == f {
        WiredIsCopied(w, f, copy);
      } else {
        FunctionCopiedMono(w, w', g);
      }
    }
  }

  /** Once 'f' is cached, its self-upvalues are copies like the others. */
  lemma WiredIsCopied(w: World, f: Ref, copy: Ref)
    requires f in w.funcs && w.funcs[f].InProgress?
    requires f in w.src.funcs && copy in w.dst.funcs && w.dst.funcs[copy].code == w.src.funcs[f].code
    requires UpvaluesWired(w, f, copy, w.dst.funcs[copy].upvalues)
    requires |w.dst.funcs[copy].upvalues| == |w.src.funcs[f].upvalues|
    ensures FunctionCopied(FinishFunction(w, f, copy), f)
  {
  }

  lemma FinishKeeps(e: World, w: World, base: World, f: Ref, copy: Ref)
    requires FillingFunction(e, w, base, f) && OwnCopy(e, w, base, copy)
    requires w.dst.funcs[copy].code == w.src.funcs[f].code
    requires UpvaluesWired(w, f, copy, w.dst.funcs[copy].upvalues)
    requires |w.dst.funcs[copy].upvalues| == |w.src.funcs[f].upvalues|
    ensures var w' := FinishFunction(w, f, copy);
            Inv(w', base) && Grows(e, w') && Complete(e, w', {}, {}) && SameInProgress(e.funcs, w'.funcs)
            && NewReachable(e, w', FunctionRef(f)) && Copied(w', FunctionRef(f), FunctionRef(copy))
  {
    hide Inv, AllReachable, Complete, UpvaluesWired, Grows;
    var w' := FinishFunction(w, f, copy);
    CachedIsSource(w, base, f);
    NotReentered(e, w, base, f, copy);
    FinishInv(w, base, f, copy);
    CompleteFinish(e, w, f, copy);
    FinishGrows(e, w, f, copy);
    assert w'.funcs.Keys == w.funcs.Keys;
  }

  /** A metatable in use at a copy, which the target did not know from the start, has been copied. */
  lemma UnknownMetaCached(w: World, base: World, m: Ref)
    requires Inv(w, base) && m in w.srcReg.idOf && w.srcReg.idOf[m] in w.dstReg.byId && m !in Known(base)
    ensures m in w.tables
  {
    hide FinishOrder, MetOk, NoReentry, TableCacheOk, FunctionCacheOk, Closed, Allocated, Extends;
    var id := w.srcReg.idOf[m];
    assert id in base.dstReg.byId ==> id <= base.lastId;
  }

  lemma TableChildSettled(w: World, base: World, t: Ref, y: Value)
    requires Inv(w, base) && TableCopied(w, t) && CopyEdge(w.src, Known(base), TableRef(t), y)
    ensures Settled(w, y)
  {
    hide Inv, Known;
    if k :| k in w.src.tables[t].entries && Basic(k) && w.src.tables[t].entries[k] == y {
      assert Copied(w, y, w.dst.tables[w.tables[t]].entries[k]);
    } else {
      UnknownMetaCached(w, base, w.src.tables[t].meta.value);
    }
  }

  lemma FunctionChildSettled(w: World, base: World, h: Ref, y: Value)
    requires FunctionCopied(w, h) && CopyEdge(w.src, Known(base), FunctionRef(h), y)
    ensures Settled(w, y)
  {
  }

  lemma FirstSettled(w: World, f: Ref, copy: Ref, ups: seq<Value>, known: set<Ref>, y: Value)
    requires f in w.src.funcs && UpvaluesWired(w, f, copy, ups) && |ups| == |w.src.funcs[f].upvalues|
    requires CopyEdge(w.src, known, FunctionRef(f), y)
    ensures Settled(w, y)
  {
  }

  /** Along a path of objects that had not been met before 'f', all are copied before 'f' is. */
  lemma {:induction false} PathSettled(e: World, w: World, base: World, f: Ref, copy: Ref, p: seq<Value>, i: nat)
    requires FillingFunction(e, w, base, f) && f in w.src.funcs && copy in w.dst.funcs
    requires UpvaluesWired(w, f, copy, w.dst.funcs[copy].upvalues)
    requires |w.dst.funcs[copy].upvalues| == |w.src.funcs[f].upvalues|
    requires FreshJoins(w.src, Known(base), w.met[f], p, FunctionRef(f), FunctionRef(f)) && 0 < i < |p|
    ensures Settled(w, p[i])
  {
    hide Inv, Grows, NewReachable, SameInProgress, CallStackReaches, UnmetByStack, UpvaluesWired, CopyEdge, TableCopied,
         FunctionCopied, Known;
    assert CopyEdge(w.src, Known(base), p[i - 1], p[i - 1 + 1]);
    if i == 1 {
      FirstSettled(w, f, copy, w.dst.funcs[copy].upvalues, Known(base), p[1]);
    } else {
      PathSettled(e, w, base, f, copy, p, i - 1);
      match p[i - 1] {
        case TableRef(t) => TableChildSettled(w, base, t, p[i]);
        case FunctionRef(h) => FunctionChildSettled(w, base, h, p[i]);
        case _ => NoChildren(w.src, Known(base), p[i - 1], p[i]);
      }
    }
  }

  lemma NoChildren(g: Graph, known: set<Ref>, x: Value, y: Value)
    requires CopyEdge(g, known, x, y)
    ensures x.TableRef? || x.FunctionRef?
  {
  }

  /** A function whose upvalues have all been pushed cannot be reached again through what was met since. */
  lemma NotReentered(e: World, w: World, base: World, f: Ref, copy: Ref)
    requires FillingFunction(e, w, base, f) && f in w.src.funcs && copy in w.dst.funcs
    requires UpvaluesWired(w, f, copy, w.dst.funcs[copy].upvalues)
    requires |w.dst.funcs[copy].upvalues| == |w.src.funcs[f].upvalues|
    ensures !FreshPath(w.src, Known(base), w.met[f], FunctionRef(f), FunctionRef(f))
  {
    hide Inv, Grows, NewReachable, SameInProgress, CallStackReaches, UnmetByStack, UpvaluesWired, CopyEdge, Complete;
    if p :| FreshJoins(w.src, Known(base), w.met[f], p, FunctionRef(f), FunctionRef(f)) {
      PathSettled(e, w, base, f, copy, p, |p| - 1);
      assert false;
    }
  }

  lemma CachedIsSource(w: World, base: World, f: Ref)
    requires Inv(w, base) && f in w.funcs
    ensures f in w.src.funcs
  {
  }

  lemma FinishGrows(e: World, w: World, f: Ref, copy: Ref)
    requires Grows(e, w) && f in w.funcs && f !in e.funcs && copy !in e.dst.funcs
    ensures Grows(e, FinishFunction(w, f, copy))
  {
  }

  lemma FinishKeepsOrder(w: World, f: Ref, copy: Ref)
    requires FinishOrder(w.src, w.funcs, w.finished) && f in w.src.funcs && f in w.funcs && w.funcs[f].InProgress?
    requires copy in w.dst.funcs && UpvaluesWired(w, f, copy, w.dst.funcs[copy].upvalues)
    requires |w.dst.funcs[copy].upvalues| == |w.src.funcs[f].upvalues|
    ensures FinishOrder(w.src, w.funcs[f := Done(copy)], w.finished + [f])
  {
    var w' := FinishFunction(w, f, copy);
    var ups := w.dst.funcs[copy].upvalues;
    forall i | 0 <= i < |w'.finished| ensures UpvaluesBefore(w'.src, w'.finished, i) {
      if i < |w.finished| {
        assert UpvaluesBefore(w.src, w.finished, i);
        assert w'.finished[..i] == w.finished[..i];
      } else {
        assert w'.finished[..i] == w.finished;
        forall j | 0 <= j < |ups| && w.src.funcs[f].upvalues[j].FunctionRef?
          ensures SelfUpvalue(w.src, f, j) || w.src.funcs[f].upvalues[j].f in w.finished
        {
          if !SelfUpvalue(w.src, f, j) {
            assert Copied(w, w.src.funcs[f].upvalues[j], ups[j]);
          }
        }
      }
    }
  }
}
