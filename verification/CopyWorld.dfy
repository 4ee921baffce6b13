/**
 What one inter-state copy has done so far (iw_lanes/tools.cpp), as a value: both heaps, the
 metatable registries of both states, and the cache of the copy in progress. The predicates say
 what the traversal keeps; the lemmas say which small steps keep it.
 */
module CopyWorld {
  import opened Basics
  import opened LuaGraph

  /** reg[REG_MTID] of one state, both directions of it. */
  datatype Registry = Registry(idOf: map<Ref, nat>, byId: map<nat, Ref>)

  /** A cached function is either copied, or marked as being worked on. */
  datatype CachedFunction = InProgress | Done(copy: Ref)

  datatype World = World(
    src: Graph,
    dst: Graph,
    srcReg: Registry,
    dstReg: Registry,
    tables: map<Ref, Ref>,
    funcs: map<Ref, CachedFunction>,
    finished: seq<Ref>,
    order: seq<Value>,
    met: map<Ref, Met>,
    lastId: nat)

  // ----- registries -----

  /** The registry is a two-way bijection over tables of its heap; ids run from 1 to 'lastId'. */
  ghost predicate Bijection(reg: Registry, heap: set<Ref>, lastId: nat) {
    && (forall t | t in reg.idOf :: t in heap && 1 <= reg.idOf[t] <= lastId)
    && (forall t | t in reg.idOf :: reg.idOf[t] in reg.byId && reg.byId[reg.idOf[t]] == t)
    && (forall id | id in reg.byId :: reg.byId[id] in reg.idOf && reg.idOf[reg.byId[id]] == id)
  }

  function Register(reg: Registry, t: Ref, id: nat): Registry {
    Registry(reg.idOf[t := id], reg.byId[id := t])
  }

  // ----- source value against its copy -----

  ghost predicate Copied(w: World, v: Value, v': Value) {
    match v
    case TableRef(t) => t in w.tables && v' == TableRef(w.tables[t])
    case FunctionRef(f) => f in w.funcs && w.funcs[f].Done? && v' == FunctionRef(w.funcs[f].copy)
    case UserdataRef(u) =>
      && u in w.src.udata
      && (match w.src.udata[u]
          case DeepProxy(_, _) => v'.UserdataRef? && v'.u in w.dst.udata && w.dst.udata[v'.u] == w.src.udata[u]
          case FullUserdata(a) => v' == LightUserdata(a))
    case ThreadRef(_) => false
    case _ => v' == v
  }

  /** 'v' has been copied, or needs no copy. */
  ghost predicate Settled(w: World, v: Value) {
    match v
    case TableRef(t) => t in w.tables
    case FunctionRef(f) => f in w.funcs && w.funcs[f].Done?
    case ThreadRef(_) => false
    case _ => true
  }

  ghost predicate EntriesCopied(w: World, from: map<Value, Value>, to: map<Value, Value>) {
    && (forall k :: k in to <==> k in from && Basic(k))
    && (forall k | k in to :: Copied(w, from[k], to[k]))
  }

  /** The copy's metatable is the one the target registry knows under the id of the source's. */
  ghost predicate MetaCopied(w: World, m: Option<Ref>, m': Option<Ref>) {
    match m
    case None => m' == None
    case Some(t) =>
      && t in w.srcReg.idOf
      && w.srcReg.idOf[t] in w.dstReg.byId
      && m' == Some(w.dstReg.byId[w.srcReg.idOf[t]])
  }

  ghost predicate TableCopied(w: World, s: Ref) {
    && s in w.src.tables && s in w.tables && w.tables[s] in w.dst.tables
    && EntriesCopied(w, w.src.tables[s].entries, w.dst.tables[w.tables[s]].entries)
    && MetaCopied(w, w.src.tables[s].meta, w.dst.tables[w.tables[s]].meta)
  }

  ghost predicate UpvaluesCopied(w: World, from: seq<Value>, to: seq<Value>) {
    |from| == |to| && forall i | 0 <= i < |from| :: Copied(w, from[i], to[i])
  }

  ghost predicate FunctionCopied(w: World, f: Ref) {
    && f in w.src.funcs && f in w.funcs && w.funcs[f].Done? && w.funcs[f].copy in w.dst.funcs
    && w.dst.funcs[w.funcs[f].copy].code == w.src.funcs[f].code
    && UpvaluesCopied(w, w.src.funcs[f].upvalues, w.dst.funcs[w.funcs[f].copy].upvalues)
  }

  // ----- what every step keeps -----

  /** Copies are new objects, and two source tables never share one. */
  ghost predicate TableCacheOk(tables: map<Ref, Ref>, src: set<Ref>, dst: set<Ref>, was: set<Ref>) {
    && tables.Keys <= src
    && (forall s | s in tables :: tables[s] in dst && tables[s] !in was)
    && (forall s, t | s in tables && t in tables && s != t :: tables[s] != tables[t])
  }

  ghost predicate FunctionCacheOk(funcs: map<Ref, CachedFunction>, src: set<Ref>, dst: set<Ref>, was: set<Ref>) {
    && funcs.Keys <= src
    && (forall f | f in funcs && funcs[f].Done? :: funcs[f].copy in dst && funcs[f].copy !in was)
    && (forall f, g | f in funcs && g in funcs && f != g && funcs[f].Done? && funcs[g].Done? ::
          funcs[f].copy != funcs[g].copy)
  }

  /** A metatable registered at the target during this copy is the copy of the source's metatable. */
  ghost predicate NewIdsOk(was: Registry, dstReg: Registry, srcReg: Registry, tables: map<Ref, Ref>) {
    && Submap(was.byId, dstReg.byId)
    && Submap(was.idOf, dstReg.idOf)
    && (forall id | id in dstReg.byId && id !in was.byId ::
          && id in srcReg.byId
          && srcReg.byId[id] in tables
          && dstReg.byId[id] == tables[srcReg.byId[id]])
  }

  /** 'f' has all its function upvalues, other than itself, before position 'i' of 'order'. */
  ghost predicate UpvaluesBefore(g: Graph, order: seq<Ref>, i: nat)
    requires i < |order|
  {
    && order[i] in g.funcs
    && forall j | 0 <= j < |g.funcs[order[i]].upvalues| && g.funcs[order[i]].upvalues[j].FunctionRef? ::
         SelfUpvalue(g, order[i], j) || g.funcs[order[i]].upvalues[j].f in order[..i]
  }

  /** Functions finish after their function upvalues. */
  ghost predicate FinishOrder(g: Graph, funcs: map<Ref, CachedFunction>, finished: seq<Ref>) {
    && (forall f :: f in finished <==> f in funcs && funcs[f].Done?)
    && (forall i | 0 <= i < |finished| :: UpvaluesBefore(g, finished, i))
  }

  /** Metatables of the source that the target knows from the start. */
  function Known(base: World): set<Ref> {
    set m | m in base.srcReg.idOf && base.srcReg.idOf[m] in base.dstReg.byId
  }

  /** For every function of the cache it is recorded what had been met before it. */
  ghost predicate MetOk(met: map<Ref, Met>, tables: set<Ref>, funcs: set<Ref>) {
    && met.Keys == funcs
    && (forall f | f in met :: met[f].tables <= tables && met[f].funcs <= funcs)
  }

  /** 'order' lists the objects of the cache, each once, and what was before a function is what had been
      met before it. */
  ghost predicate OrderOk(order: seq<Value>, tables: set<Ref>, funcs: set<Ref>, met: map<Ref, Met>) {
    && Distinct(order)
    && (forall v | v in order :: v.TableRef? || v.FunctionRef?)
    && (forall t :: TableRef(t) in order <==> t in tables)
    && (forall f :: FunctionRef(f) in order <==> f in funcs)
    && (forall i | 0 <= i < |order| && order[i].FunctionRef? ::
          order[i].f in met && met[order[i].f] == MetOf(order[..i]))
  }

  ghost predicate SourceIdsOk(reg: Registry, lastId: nat, reg': Registry, lastId': nat) {
    Submap(reg.idOf, reg'.idOf) && NewSourceIds(reg, lastId, reg') && lastId <= lastId'
  }

  /** No finished function could be re-entered while it was in progress. */
  ghost predicate NoReentry(g: Graph, known: set<Ref>, funcs: map<Ref, CachedFunction>, met: map<Ref, Met>) {
    forall f | f in funcs && funcs[f].Done? && f in met :: !FreshPath(g, known, met[f], FunctionRef(f), FunctionRef(f))
  }

  ghost predicate Extends(g: Graph, g': Graph) {
    && Submap(g.tables, g'.tables)
    && Submap(g.funcs, g'.funcs)
    && Submap(g.udata, g'.udata)
  }

  ghost predicate Inv(w: World, base: World) {
    && w.src == base.src
    && Closed(w.src)
    && Closed(w.dst)
    && Allocated(w.dst)
    && Extends(base.dst, w.dst)
    && TableCacheOk(w.tables, w.src.tables.Keys, w.dst.tables.Keys, base.dst.tables.Keys)
    && FunctionCacheOk(w.funcs, w.src.funcs.Keys, w.dst.funcs.Keys, base.dst.funcs.Keys)
    && Bijection(w.srcReg, w.src.tables.Keys, w.lastId)
    && Bijection(w.dstReg, w.dst.tables.Keys, w.lastId)
    && Bijection(base.dstReg, base.dst.tables.Keys, base.lastId)
    && NewIdsOk(base.dstReg, w.dstReg, w.srcReg, w.tables)
    && FinishOrder(w.src, w.funcs, w.finished)
    && MetOk(w.met, w.tables.Keys, w.funcs.Keys)
    && OrderOk(w.order, w.tables.Keys, w.funcs.Keys, w.met)
    && SourceIdsOk(base.srcReg, base.lastId, w.srcReg, w.lastId)
    && NoReentry(w.src, Known(base), w.funcs, w.met)
  }

  /** Nothing that exists is touched again; cached entries stay. */
  ghost predicate Grows(w: World, w': World) {
    && w'.src == w.src
    && Extends(w.dst, w'.dst)
    && GrowsCache(w, w')
    && NewCopies(w.tables, w.funcs, w.dst, w'.tables, w'.funcs)
    && NewSourceIds(w.srcReg, w.lastId, w'.srcReg)
    && Submap(w.met, w'.met)
    && w.order <= w'.order
  }

  /** Ids given since are above all earlier ones. */
  ghost predicate NewSourceIds(reg: Registry, lastId: nat, reg': Registry) {
    forall t | t in reg'.idOf && t !in reg.idOf :: reg'.idOf[t] > lastId
  }

  /** What has been cached since is a new object of the target. */
  ghost predicate NewCopies(tables: map<Ref, Ref>, funcs: map<Ref, CachedFunction>, dst: Graph,
                            tables': map<Ref, Ref>, funcs': map<Ref, CachedFunction>)
  {
    && (forall s | s in tables' && s !in tables :: tables'[s] !in dst.tables)
    && (forall f | f in funcs' && funcs'[f].Done? && !(f in funcs && funcs[f].Done?) ::
          funcs'[f].copy !in dst.funcs)
  }

  ghost predicate GrowsRegistry(reg: Registry, reg': Registry) {
    Submap(reg.idOf, reg'.idOf) && Submap(reg.byId, reg'.byId)
  }

  ghost predicate GrowsFunctions(funcs: map<Ref, CachedFunction>, funcs': map<Ref, CachedFunction>) {
    forall f | f in funcs :: f in funcs' && (funcs[f].Done? ==> funcs'[f] == funcs[f])
  }

  ghost predicate GrowsCache(w: World, w': World) {
    && GrowsRegistry(w.srcReg, w'.srcReg)
    && GrowsRegistry(w.dstReg, w'.dstReg)
    && Submap(w.tables, w'.tables)
    && GrowsFunctions(w.funcs, w'.funcs)
    && w.lastId <= w'.lastId
  }

  ghost predicate SameInProgress(funcs: map<Ref, CachedFunction>, funcs': map<Ref, CachedFunction>) {
    forall f :: f in funcs && funcs[f].InProgress? <==> f in funcs' && funcs'[f].InProgress?
  }

  /** Everything cached since 'w', other than 'xt' and 'xf', is completely copied. */
  ghost predicate Complete(w: World, w': World, xt: set<Ref>, xf: set<Ref>) {
    && (forall s | s in w'.tables && s !in w.tables && s !in xt :: TableCopied(w', s))
    && (forall f | f in w'.funcs && f !in w.funcs && f !in xf :: FunctionCopied(w', f))
  }

  /** Since 'w', everything but the objects of 'open', which are still in work, is completely copied. */
  ghost predicate Halted(w: World, w': World, open: seq<Value>) {
    && (forall s | s in w'.tables && s !in w.tables :: TableCopied(w', s) <==> TableRef(s) !in open)
    && (forall f | f in w'.funcs && f !in w.funcs :: FunctionCopied(w', f) <==> FunctionRef(f) !in open)
    && (forall v | v in open :: CachedSince(w, w', v))
    && (forall f | f in w.funcs && w.funcs[f].InProgress? :: f in w'.funcs && w'.funcs[f].InProgress?)
  }

  predicate CachedSince(w: World, w': World, v: Value) {
    match v
    case TableRef(t) => t in w'.tables && t !in w.tables
    case FunctionRef(f) => f in w'.funcs && f !in w.funcs
    case _ => false
  }

  /** Everything cached since 'w' is reachable from 'v'. */
  ghost predicate NewReachable(w: World, w': World, v: Value) {
    && AllReachable(w.src, v, w'.tables.Keys - w.tables.Keys, w'.funcs.Keys - w.funcs.Keys)
  }

  ghost predicate AllReachable(g: Graph, v: Value, tables: set<Ref>, funcs: set<Ref>) {
    && (forall s | s in tables :: Reaches(g, v, TableRef(s)))
    && (forall f | f in funcs :: Reaches(g, v, FunctionRef(f)))
  }

  /** Every function in progress leads to 'v', through objects met since. */
  ghost predicate CallStackReaches(
      g: Graph, known: set<Ref>, funcs: map<Ref, CachedFunction>, met: map<Ref, Met>, v: Value) {
    forall f | f in funcs && funcs[f].InProgress? :: f in met && FreshPath(g, known, met[f], FunctionRef(f), v)
  }

  /** 'v' had not been met when the functions in progress were. */
  ghost predicate UnmetByStack(funcs: map<Ref, CachedFunction>, met: map<Ref, Met>, v: Value) {
    forall f | f in funcs && funcs[f].InProgress? :: f in met && Unmet(met[f], v)
  }

  /** Source objects that the traversal has not met yet: the termination measure. */
  function Unvisited(w: World): nat {
    |w.src.tables.Keys - w.tables.Keys| + |w.src.funcs.Keys - w.funcs.Keys|
  }

  /** A copy is an object of the target. */
  lemma CopiedIn(w: World, base: World, v: Value, v': Value)
    requires Inv(w, base) && Copied(w, v, v')
    ensures ValueIn(w.dst, v')
  {
  }

  // ----- monotonicity -----

  lemma UpvaluesCopiedMono(w: World, w': World, from: seq<Value>, to: seq<Value>)
    requires UpvaluesCopied(w, from, to)
    requires w'.src == w.src && Submap(w.dst.udata, w'.dst.udata) && GrowsCache(w, w')
    ensures UpvaluesCopied(w', from, to)
  {
  }

  lemma TableCopiedMono(w: World, w': World, s: Ref)
    requires TableCopied(w, s)
    requires w'.src == w.src && Submap(w.dst.udata, w'.dst.udata) && GrowsCache(w, w')
    requires w.tables[s] in w'.dst.tables && w'.dst.tables[w.tables[s]] == w.dst.tables[w.tables[s]]
    ensures TableCopied(w', s)
  {
  }

  lemma FunctionCopiedMono(w: World, w': World, f: Ref)
    requires FunctionCopied(w, f)
    requires w'.src == w.src && Submap(w.dst.udata, w'.dst.udata) && GrowsCache(w, w')
    requires w.funcs[f].copy in w'.dst.funcs
    requires w'.dst.funcs[w.funcs[f].copy] == w.dst.funcs[w.funcs[f].copy]
    ensures FunctionCopied(w', f)
  {
  }

  lemma GrowsTrans(w: World, w1: World, w2: World)
    requires Grows(w, w1) && Grows(w1, w2)
    ensures Grows(w, w2)
  {
  }

  /** 'w1' to 'w2' is a recursive copy, complete in itself. */
  lemma CompleteTrans(w: World, w1: World, w2: World, xt: set<Ref>, xf: set<Ref>)
    requires Complete(w, w1, xt, xf) && Complete(w1, w2, {}, {}) && Grows(w1, w2)
    ensures Complete(w, w2, xt, xf)
  {
    forall s | s in w2.tables && s !in w.tables && s !in xt ensures TableCopied(w2, s) {
      if s in w1.tables {
        TableCopiedMono(w1, w2, s);
      }
    }
    forall f | f in w2.funcs && f !in w.funcs && f !in xf ensures FunctionCopied(w2, f) {
      if f in w1.funcs {
        FunctionCopiedMono(w1, w2, f);
      }
    }
  }

  lemma NewReachableTrans(w: World, w1: World, w2: World, v: Value, y: Value)
    requires NewReachable(w, w1, v) && NewReachable(w1, w2, y) && w1.src == w.src
    requires Edge(w.src, v, y)
    ensures NewReachable(w, w2, v)
  {
    forall s | s in w2.tables && s !in w.tables ensures Reaches(w.src, v, TableRef(s)) {
      if s !in w1.tables {
        EdgeThenReaches(w.src, v, y, TableRef(s));
      }
    }
    forall f | f in w2.funcs && f !in w.funcs ensures Reaches(w.src, v, FunctionRef(f)) {
      if f !in w1.funcs {
        EdgeThenReaches(w.src, v, y, FunctionRef(f));
      }
    }
  }

  lemma UnvisitedShrinks(w: World, w': World)
    requires w'.src == w.src
    requires w.tables.Keys <= w'.tables.Keys && w.funcs.Keys <= w'.funcs.Keys
    ensures Unvisited(w') <= Unvisited(w)
    ensures (exists s :: s in w.src.tables && s in w'.tables && s !in w.tables) ==> Unvisited(w') < Unvisited(w)
    ensures (exists f :: f in w.src.funcs && f in w'.funcs && f !in w.funcs) ==> Unvisited(w') < Unvisited(w)
  {
    var a, a' := w.src.tables.Keys - w.tables.Keys, w.src.tables.Keys - w'.tables.Keys;
    var b, b' := w.src.funcs.Keys - w.funcs.Keys, w.src.funcs.Keys - w'.funcs.Keys;
    SubsetSize(a', a);
    SubsetSize(b', b);
  }

  lemma SubsetSize<T>(a: set<T>, b: set<T>)
    requires a <= b
    ensures |a| <= |b|
    ensures a != b ==> |a| < |b|
  {
    assert b == a + (b - a);
    assert |b| == |a| + |b - a|;
  }
}
