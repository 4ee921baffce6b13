/**
 The inter-state copy of iw_lanes/tools.cpp: a recursive traversal of the source heap that builds
 its copy in the target heap, with a cache for the duration of one call and the metatable
 registries of both states beyond it.
 */
module InterCopy {
  import opened Basics
  import opened LuaGraph
  import opened DepthFirst
  import opened CopyWorld
  import opened CopySteps

  datatype ValueType = VtNormal | VtKey | VtMetatable

  datatype CopyError = RecursiveUpvalues | UnsupportedType | NotEnoughValues

  /** A value was pushed; or its type is not supported here; or 'luaL_error' left the traversal. */
  datatype CopyResult = Pushed(value: Value) | NotPushed | Failed(error: CopyError)

  /** Why a copy may fail: in reach of the value is a function that leads back to itself, or a thread. */
  ghost predicate Justified(g: Graph, v: Value, error: CopyError) {
    match error
    case RecursiveUpvalues =>
      exists f :: Reaches(g, v, FunctionRef(f)) && ReachesPlus(g, FunctionRef(f), FunctionRef(f))
    case UnsupportedType => exists th :: Reaches(g, v, ThreadRef(th))
    case NotEnoughValues => false
  }

  /** Some function that has been met leads back to itself through objects that had not been met before it. */
  ghost predicate Stuck(g: Graph, known: set<Ref>, met: map<Ref, Met>) {
    exists f :: f in met && FreshPath(g, known, met[f], FunctionRef(f), FunctionRef(f))
  }

  ghost predicate Blamed(w: World, base: World, v: Value, error: CopyError) {
    Justified(w.src, v, error) && (error.RecursiveUpvalues? ==> Stuck(w.src, Known(base), w.met))
  }

  /** What holds after any visit of 'v', successful or not. */
  ghost predicate Visited(w: World, w': World, base: World, v: Value) {
    Inv(w', base) && Grows(w, w') && NewReachable(w, w', v)
  }

  /** What a successful visit adds: nothing is left half copied. */
  ghost predicate Finished(w: World, w': World) {
    Complete(w, w', {}, {}) && SameInProgress(w.funcs, w'.funcs)
  }

  /** Where a visit has stopped, if it has. */
  function Stop(failed: bool, open: seq<Value>): Option<seq<Value>> {
    if failed then Some(open) else None
  }

  /** How a visit of 'v' ends: it has met objects depth first, and leaves half copied those it has stopped in. */
  ghost predicate Ended(w: World, w': World, base: World, v: Value, stop: Option<seq<Value>>) {
    && Visit(w.src, Known(base), w.order, w'.order, v, stop)
    && match stop
       case None => Finished(w, w')
       case Some(open) => Halted(w, w', open)
  }

  /** Since 'e', 'v' has been met, and all of 'cs' after it; if the last has stopped, 'v' stays half copied too. */
  ghost predicate InWork(e: World, w: World, base: World, v: Value, cs: seq<Value>, stop: Option<seq<Value>>) {
    && Search(w.src, Known(base), e.order, w.order, v, cs, stop)
    && (stop.Some? ==> Halted(e, w, [v] + stop.value))
  }

  // ----- the order of a visit -----

  lemma WorkStarts(e: World, w: World, base: World, v: Value)
    requires w.order == e.order + [v]
    ensures InWork(e, w, base, v, [], None)
  {
    SearchStarts(w.src, Known(base), e.order, v);
  }

  lemma WorkChild(e: World, w: World, w': World, base: World, v: Value, cs: seq<Value>, c: Value,
                  stop: Option<seq<Value>>)
    requires InWork(e, w, base, v, cs, None) && Visit(w.src, Known(base), w.order, w'.order, c, stop)
    requires w'.src == w.src && (stop.Some? ==> Halted(e, w', [v] + stop.value))
    ensures InWork(e, w', base, v, cs + [c], stop)
  {
    hide Search, Visit, Halted;
    SearchChild(w.src, Known(base), e.order, w.order, w'.order, v, cs, c, stop);
  }

  /** Nothing has been met since. */
  lemma WorkKept(e: World, w: World, w': World, base: World, v: Value, cs: seq<Value>)
    requires InWork(e, w, base, v, cs, None) && w'.src == w.src && w'.order == w.order
    ensures InWork(e, w', base, v, cs, None)
  {
    hide Search;
  }

  lemma WorkStops(e: World, w: World, base: World, v: Value, cs: seq<Value>, later: seq<Value>, open: seq<Value>)
    requires InWork(e, w, base, v, cs, Some(open))
    ensures InWork(e, w, base, v, cs + later, Some(open))
  {
    hide Search, Halted;
    SearchStops(w.src, Known(base), e.order, w.order, v, cs, later, open);
  }

  /** A child that has been met, or is none. */
  lemma WorkNothing(e: World, w: World, base: World, v: Value, cs: seq<Value>, c: Value)
    requires InWork(e, w, base, v, cs, None) && (c == v || c in w.order) && Cached(c)
    ensures InWork(e, w, base, v, cs + [c], None)
  {
    hide Visit, Halted;
    assert (e.order + [v])[|e.order|] == v;
    NothingMet(w.src, Known(base), w.order, c, None);
    WorkChild(e, w, w, base, v, cs, c, None);
  }

  lemma WorkEnds(e: World, w: World, base: World, v: Value, cs: seq<Value>, stop: Option<seq<Value>>)
    requires InWork(e, w, base, v, cs, stop) && Children(w.src, Known(base), v, cs) && v !in e.order
    requires w.src == e.src && (stop.None? ==> Finished(e, w))
    ensures Ended(e, w, base, v, if stop.Some? then Some([v] + stop.value) else None)
  {
    hide Search, Visit, Halted, Children, Finished;
    SearchEnds(w.src, Known(base), e.order, w.order, v, cs, stop);
  }

  lemma NotMet(w: World, base: World, v: Value)
    requires Inv(w, base) && (v.TableRef? ==> v.t !in w.tables) && (v.FunctionRef? ==> v.f !in w.funcs) && Cached(v)
    ensures v !in w.order
  {
    hide Bijection, NewIdsOk, FinishOrder, TableCacheOk, FunctionCacheOk, Closed, Allocated, Extends, NoReentry,
         SourceIdsOk, MetOk;
  }

  lemma MetBefore(w: World, base: World, v: Value)
    requires Inv(w, base) && Cached(v) && (v.TableRef? ==> v.t in w.tables) && (v.FunctionRef? ==> v.f in w.funcs)
    ensures v in w.order
  {
    hide Bijection, NewIdsOk, FinishOrder, TableCacheOk, FunctionCacheOk, Closed, Allocated, Extends, NoReentry,
         SourceIdsOk, MetOk;
  }

  /** A value that leads to nothing new. */
  lemma EndedAtOnce(w: World, base: World, v: Value)
    requires Inv(w, base) && !v.ThreadRef?
    requires (v.TableRef? ==> v.t in w.tables) && (v.FunctionRef? ==> v.f in w.funcs)
    ensures Ended(w, w, base, v, None)
  {
    if Cached(v) {
      MetBefore(w, base, v);
    }
    hide Inv, Visit;
    NothingMet(w.src, Known(base), w.order, v, None);
  }

  /** A thread, or a function in progress. */
  lemma RefusedAtOnce(w: World, base: World, v: Value)
    requires Inv(w, base) && (v.ThreadRef? || (v.FunctionRef? && v.f in w.funcs))
    ensures Ended(w, w, base, v, Some([]))
  {
    if v.FunctionRef? {
      MetBefore(w, base, v);
    }
    hide Inv, Visit;
    NothingMet(w.src, Known(base), w.order, v, Some([]));
  }

  // ----- half copied -----

  lemma HaltedInTable(e: World, w: World, w': World, base: World, s: Ref, open: seq<Value>)
    requires FillingTable(e, w, base, s) && Grows(w, w') && Halted(w, w', open) && !TableCopied(w', s)
    ensures Halted(e, w', [TableRef(s)] + open)
  {
    hide Inv, NewReachable, CallStackReaches, UnmetByStack, TableCopied, FunctionCopied, NewCopies, NewSourceIds;
    forall t | t in w'.tables && t !in e.tables && t in w.tables && t != s ensures TableCopied(w', t) {
      TableCopiedStays(w, w', t);
    }
    forall f | f in w.funcs && f !in e.funcs ensures FunctionCopied(w', f) {
      FunctionCopiedStays(w, w', f);
    }
  }

  lemma HaltedInFunction(e: World, w: World, w': World, base: World, f: Ref, open: seq<Value>)
    requires FillingFunction(e, w, base, f) && Grows(w, w') && Halted(w, w', open)
    ensures Halted(e, w', [FunctionRef(f)] + open)
  {
    hide Inv, NewReachable, CallStackReaches, UnmetByStack, TableCopied, FunctionCopied, NewCopies, NewSourceIds,
         GrowsRegistry, Extends;
    UnfinishedStays(w, w', f, open);
    forall t | t in w.tables && t !in e.tables ensures TableCopied(w', t) {
      TableCopiedStays(w, w', t);
    }
    forall g | g in w.funcs && g !in e.funcs && g != f ensures FunctionCopied(w', g) {
      FunctionCopiedStays(w, w', g);
    }
  }

  lemma UnfinishedStays(w: World, w': World, f: Ref, open: seq<Value>)
    requires Halted(w, w', open) && f in w.funcs && w.funcs[f].InProgress?
    ensures !FunctionCopied(w', f)
  {
  }

  lemma TableCopiedStays(w: World, w': World, t: Ref)
    requires TableCopied(w, t) && Grows(w, w')
    ensures TableCopied(w', t)
  {
    TableCopiedMono(w, w', t);
  }

  lemma FunctionCopiedStays(w: World, w': World, f: Ref)
    requires FunctionCopied(w, f) && Grows(w, w')
    ensures FunctionCopied(w', f)
  {
    FunctionCopiedMono(w, w', f);
  }

  // ----- composing a visit with the frame it happens in -----

  lemma GrowsUnvisited(w: World, w': World)
    requires Grows(w, w')
    ensures Unvisited(w') <= Unvisited(w)
  {
    UnvisitedShrinks(w, w');
  }

  lemma VisitedNothing(w: World, base: World, v: Value)
    requires Inv(w, base)
    ensures Visited(w, w, base, v) && Finished(w, w)
  {
    hide Inv;
  }

  /** Meeting a function in progress again closes a cycle through it. */
  lemma ReentryBlamed(w: World, base: World, f: Ref)
    requires CallStackReaches(w.src, Known(base), w.funcs, w.met, FunctionRef(f))
    requires f in w.funcs && w.funcs[f].InProgress?
    ensures Blamed(w, base, FunctionRef(f), RecursiveUpvalues)
  {
    FreshPathReaches(w.src, Known(base), w.met[f], FunctionRef(f), FunctionRef(f));
  }

  lemma BlamedStep(w: World, base: World, v: Value, c: Value, error: CopyError)
    requires Edge(w.src, v, c) && Blamed(w, base, c, error)
    ensures Blamed(w, base, v, error)
  {
    JustifiedStep(w.src, v, c, error);
  }

  lemma JustifiedStep(g: Graph, v: Value, c: Value, error: CopyError)
    requires Edge(g, v, c) && Justified(g, c, error)
    ensures Justified(g, v, error)
  {
    hide Edge, CopyEdge, ReachesPlus;
    match error {
      case RecursiveUpvalues =>
        var f :| Reaches(g, c, FunctionRef(f)) && ReachesPlus(g, FunctionRef(f), FunctionRef(f));
        EdgeThenReaches(g, v, c, FunctionRef(f));
      case UnsupportedType =>
        var th :| Reaches(g, c, ThreadRef(th));
        EdgeThenReaches(g, v, c, ThreadRef(th));
      case NotEnoughValues =>
    }
  }

  lemma VisitInTable(e: World, w: World, w': World, base: World, s: Ref, c: Value)
    requires FillingTable(e, w, base, s) && Visited(w, w', base, c)
    requires CopyEdge(w.src, Known(base), TableRef(s), c)
    ensures Visited(e, w', base, TableRef(s)) && Grows(w, w')
    ensures Finished(w, w') ==> FillingTable(e, w', base, s)
    ensures s in w'.tables && w.tables[s] in w'.dst.tables
    ensures w'.tables[s] == w.tables[s] && w'.dst.tables[w.tables[s]] == w.dst.tables[w.tables[s]]
  {
    hide Inv, Complete, CopyEdge, AllReachable, CallStackReaches, UnmetByStack;
    TableLeads(e, w, w', base, s, c);
    CopyUntouched(w, w', base, s);
    GrowsTrans(e, w, w');
    if Finished(w, w') {
      CompleteTrans(e, w, w', {s}, {});
    }
  }

  lemma CopyUntouched(w: World, w': World, base: World, s: Ref)
    requires Inv(w, base) && Grows(w, w') && s in w.tables
    ensures w.tables[s] in w.dst.tables && s in w'.tables && w.tables[s] in w'.dst.tables
    ensures w'.tables[s] == w.tables[s] && w'.dst.tables[w.tables[s]] == w.dst.tables[w.tables[s]]
  {
  }

  lemma TableLeads(e: World, w: World, w': World, base: World, s: Ref, c: Value)
    requires FillingTable(e, w, base, s) && Visited(w, w', base, c)
    requires CopyEdge(w.src, Known(base), TableRef(s), c)
    ensures NewReachable(e, w', TableRef(s))
  {
    CopyEdgeIsEdge(w.src, Known(base), TableRef(s), c);
    hide Inv, Complete, CopyEdge, Edge, AllReachable, CallStackReaches, UnmetByStack, Extends, GrowsCache,
         NewCopies, NewSourceIds;
    NewReachableTrans(e, w, w', TableRef(s), c);
  }

  lemma VisitInFunction(e: World, w: World, w': World, base: World, f: Ref, c: Value)
    requires FillingFunction(e, w, base, f) && Visited(w, w', base, c)
    requires CopyEdge(w.src, Known(base), FunctionRef(f), c)
    ensures Visited(e, w', base, FunctionRef(f))
    ensures Finished(w, w') ==> FillingFunction(e, w', base, f)
  {
    hide Inv, Complete, CopyEdge, AllReachable, CallStackReaches, UnmetByStack;
    FunctionLeads(e, w, w', base, f, c);
    GrowsTrans(e, w, w');
    if Finished(w, w') {
      CompleteTrans(e, w, w', {}, {f});
    }
  }

  lemma FunctionLeads(e: World, w: World, w': World, base: World, f: Ref, c: Value)
    requires FillingFunction(e, w, base, f) && Visited(w, w', base, c)
    requires CopyEdge(w.src, Known(base), FunctionRef(f), c)
    ensures NewReachable(e, w', FunctionRef(f))
  {
    CopyEdgeIsEdge(w.src, Known(base), FunctionRef(f), c);
    hide Inv, Complete, CopyEdge, Edge, AllReachable, CallStackReaches, UnmetByStack, Extends, GrowsCache,
         NewCopies, NewSourceIds;
    NewReachableTrans(e, w, w', FunctionRef(f), c);
  }

  /** The functions in progress lead to whatever the table or function in work refers to. */
  lemma StackReachesChild(g: Graph, known: set<Ref>, funcs: map<Ref, CachedFunction>, met: map<Ref, Met>, v: Value,
                          c: Value)
    requires CallStackReaches(g, known, funcs, met, v) && UnmetByStack(funcs, met, v) && CopyEdge(g, known, v, c)
    ensures CallStackReaches(g, known, funcs, met, c)
  {
    hide CopyEdge, FreshPath;
    forall f | f in funcs && funcs[f].InProgress? ensures FreshPath(g, known, met[f], FunctionRef(f), c) {
      FreshPathThenEdge(g, known, met[f], FunctionRef(f), v, c);
    }
  }

  lemma TableStackChild(e: World, w: World, base: World, s: Ref, c: Value)
    requires FillingTable(e, w, base, s) && CopyEdge(w.src, Known(base), TableRef(s), c)
    ensures CallStackReaches(w.src, Known(base), w.funcs, w.met, c)
  {
    hide Inv, NewReachable, Complete, CopyEdge, FreshPath, Extends, GrowsCache, NewCopies, NewSourceIds;
    StackReachesChild(e.src, Known(base), e.funcs, e.met, TableRef(s), c);
  }

  lemma FunctionStackChild(e: World, w: World, base: World, f: Ref, c: Value)
    requires FillingFunction(e, w, base, f) && CopyEdge(w.src, Known(base), FunctionRef(f), c)
    ensures CallStackReaches(w.src, Known(base), w.funcs, w.met, c)
  {
    hide Inv, NewReachable, Complete, CopyEdge, FreshPath, Extends, GrowsCache, NewCopies, NewSourceIds;
    StackReachesChild(e.src, Known(base), e.funcs, e.met, FunctionRef(f), c);
    FreshEdge(w.src, Known(base), w.met[f], FunctionRef(f), c);
  }

  lemma WiredMono(w: World, w': World, f: Ref, copy: Ref, ups: seq<Value>)
    requires f in w.src.funcs && UpvaluesWired(w, f, copy, ups)
    requires w'.src == w.src && Submap(w.dst.udata, w'.dst.udata) && GrowsCache(w, w')
    ensures UpvaluesWired(w', f, copy, ups)
  {
  }

  /** One upvalue of 'f' after a visit of it: the frame grows, earlier upvalues stay wired. */
  lemma UpvaluePushed(e: World, w: World, w': World, base: World, f: Ref, copy: Ref, ups: seq<Value>, v: Value)
    requires FillingFunction(e, w, base, f) && f in w.src.funcs && UpvaluesWired(w, f, copy, ups)
    requires |ups| < |w.src.funcs[f].upvalues| && !SelfUpvalue(w.src, f, |ups|)
    requires Visited(w, w', base, w.src.funcs[f].upvalues[|ups|]) && Finished(w, w')
    requires Copied(w', w.src.funcs[f].upvalues[|ups|], v)
    ensures FillingFunction(e, w', base, f) && UpvaluesWired(w', f, copy, ups + [v])
    ensures Grows(w, w') && Visited(e, w', base, FunctionRef(f))
  {
    hide Inv, NewReachable, Complete, SameInProgress, FillingFunction, Edge, CopyEdge, Copied, NewCopies;
    UpvalueEdge(w.src, f, |ups|);
    VisitInFunction(e, w, w', base, f, w.src.funcs[f].upvalues[|ups|]);
    WiredMono(w, w', f, copy, ups);
  }

  lemma UpvalueFailed(e: World, w: World, w': World, base: World, f: Ref, i: nat, error: CopyError)
    requires FillingFunction(e, w, base, f) && f in w.src.funcs
    requires i < |w.src.funcs[f].upvalues| && !SelfUpvalue(w.src, f, i)
    requires Visited(w, w', base, w.src.funcs[f].upvalues[i])
    requires Blamed(w', base, w.src.funcs[f].upvalues[i], error)
    ensures Visited(e, w', base, FunctionRef(f)) && Blamed(w', base, FunctionRef(f), error) && Grows(w, w')
  {
    UpvalueEdge(w.src, f, i);
    VisitInFunction(e, w, w', base, f, w.src.funcs[f].upvalues[i]);
    BlamedStep(w', base, FunctionRef(f), w.src.funcs[f].upvalues[i], error);
  }

  lemma WiredNothing(w: World, f: Ref, copy: Ref)
    requires f in w.src.funcs
    ensures UpvaluesWired(w, f, copy, [])
  {
  }

  lemma WiredSelf(w: World, f: Ref, copy: Ref, ups: seq<Value>)
    requires f in w.src.funcs && UpvaluesWired(w, f, copy, ups)
    requires |ups| < |w.src.funcs[f].upvalues| && SelfUpvalue(w.src, f, |ups|)
    ensures UpvaluesWired(w, f, copy, ups + [FunctionRef(copy)])
  {
  }

  /** Upvalues are objects of the target before they are set. */
  lemma WiredIn(e: World, w: World, base: World, f: Ref, copy: Ref, ups: seq<Value>, code: Code)
    requires FillingFunction(e, w, base, f) && f in w.src.funcs && UpvaluesWired(w, f, copy, ups)
    requires copy in w.dst.funcs || w.src.funcs[f].code.CCode?
    ensures FunctionIn(w.dst, Function(code, ups))
  {
    forall i | 0 <= i < |ups| ensures ValueIn(w.dst, ups[i]) {
      if !SelfUpvalue(w.src, f, i) {
        CopiedIn(w, base, w.src.funcs[f].upvalues[i], ups[i]);
      }
    }
  }

  /** A C closure is built after its upvalues; none of them is rewired to it. */
  lemma WiredCCode(w: World, f: Ref, copy: Ref, copy': Ref, ups: seq<Value>, node: Function)
    requires f in w.src.funcs && w.src.funcs[f].code.CCode? && UpvaluesWired(w, f, copy, ups)
    ensures UpvaluesWired(NewFunction(w, node), f, copy', ups)
  {
  }

  lemma FrameVisited(e: World, w: World, base: World, f: Ref)
    requires FillingFunction(e, w, base, f)
    ensures Visited(e, w, base, FunctionRef(f))
  {
  }

  /** lua_load has put 'node' at 'copy', for the function in work alone. */
  ghost predicate IsLoaded(e: World, w: World, base: World, copy: Ref, node: Function) {
    OwnCopy(e, w, base, copy) && w.dst.funcs[copy] == node
  }

  /** A visit makes new objects only, so the copy in work stays its own. */
  lemma VisitKeepsOwn(e: World, w: World, w': World, base: World, copy: Ref)
    requires Grows(w, w')
    ensures Unvisited(w') <= Unvisited(w)
    ensures forall node :: IsLoaded(e, w, base, copy, node) ==> IsLoaded(e, w', base, copy, node)
  {
    GrowsUnvisited(w, w');
  }

  lemma UpvalueEdge(g: Graph, f: Ref, i: nat)
    requires f in g.funcs && i < |g.funcs[f].upvalues| && !SelfUpvalue(g, f, i)
    ensures Edge(g, FunctionRef(f), g.funcs[f].upvalues[i])
    ensures forall known :: CopyEdge(g, known, FunctionRef(f), g.funcs[f].upvalues[i])
  {
  }

  /** What a visit of the next upvalue asks for. */
  lemma UpvalueReady(e: World, w: World, base: World, f: Ref, i: nat)
    requires FillingFunction(e, w, base, f) && f in w.src.funcs
    requires i < |w.src.funcs[f].upvalues| && !SelfUpvalue(w.src, f, i)
    ensures Inv(w, base) && ValueIn(w.src, w.src.funcs[f].upvalues[i])
    ensures CallStackReaches(w.src, Known(base), w.funcs, w.met, w.src.funcs[f].upvalues[i])
  {
    UpvalueEdge(w.src, f, i);
    assert FunctionIn(w.src, w.src.funcs[f]);
    FunctionStackChild(e, w, base, f, w.src.funcs[f].upvalues[i]);
  }

  // ----- tables -----

  /** The keys of 'todo' are still to come; the others are copied if basic, dropped if not. */
  ghost predicate EntriesSoFar(w: World, from: map<Value, Value>, todo: set<Value>, to: map<Value, Value>) {
    && (forall k :: k in to <==> k in from && Basic(k) && k !in todo)
    && (forall k | k in to :: Copied(w, from[k], to[k]))
  }

  ghost predicate TableSoFar(w: World, s: Ref, copy: Ref, todo: set<Value>) {
    && s in w.tables && w.tables[s] == copy && s in w.src.tables && copy in w.dst.tables
    && w.dst.tables[copy].meta == None
    && EntriesSoFar(w, w.src.tables[s].entries, todo, w.dst.tables[copy].entries)
  }

  /** What a visit of the value at a basic key asks for. */
  lemma EntryReady(e: World, w: World, base: World, s: Ref, k: Value)
    requires FillingTable(e, w, base, s) && s in w.src.tables && k in w.src.tables[s].entries && Basic(k)
    ensures Inv(w, base) && ValueIn(w.src, w.src.tables[s].entries[k])
    ensures Edge(w.src, TableRef(s), w.src.tables[s].entries[k])
    ensures CopyEdge(w.src, Known(base), TableRef(s), w.src.tables[s].entries[k])
    ensures CallStackReaches(w.src, Known(base), w.funcs, w.met, w.src.tables[s].entries[k])
  {
    hide FinishOrder, MetOk, NoReentry, TableCacheOk, FunctionCacheOk, Allocated, Extends, Bijection, OrderOk, NewIdsOk,
         SourceIdsOk, Grows, Complete, NewReachable, CallStackReaches, UnmetByStack;
    assert Closed(w.src) && TableIn(w.src, w.src.tables[s]);
    TableStackChild(e, w, base, s, w.src.tables[s].entries[k]);
  }

  lemma MetaReady(e: World, w: World, base: World, s: Ref)
    requires FillingTable(e, w, base, s) && s in w.src.tables && w.src.tables[s].meta.Some?
    ensures Inv(w, base) && ValueIn(w.src, TableRef(w.src.tables[s].meta.value))
    ensures Edge(w.src, TableRef(s), TableRef(w.src.tables[s].meta.value))
  {
  }

  /** A metatable is copied only if the target has not known it from the start. */
  lemma MetaStack(e: World, w: World, base: World, s: Ref, m: Ref)
    requires FillingTable(e, w, base, s) && s in w.src.tables && w.src.tables[s].meta == Some(m)
    requires m in w.srcReg.idOf && w.srcReg.idOf[m] !in w.dstReg.byId
    ensures CallStackReaches(w.src, Known(base), w.funcs, w.met, TableRef(m))
    ensures CopyEdge(w.src, Known(base), TableRef(s), TableRef(m))
  {
    hide FinishOrder, MetOk, NoReentry, TableCacheOk, FunctionCacheOk, Closed, Allocated, Extends, Bijection;
    assert Inv(w, base) && m !in Known(base);
    TableStackChild(e, w, base, s, TableRef(m));
  }

  lemma EntriesSoFarMono(w: World, w': World, from: map<Value, Value>, todo: set<Value>, to: map<Value, Value>)
    requires EntriesSoFar(w, from, todo, to)
    requires w'.src == w.src && Submap(w.dst.udata, w'.dst.udata) && GrowsCache(w, w')
    ensures EntriesSoFar(w', from, todo, to)
  {
  }

  lemma TableSoFarMono(w: World, w': World, s: Ref, copy: Ref, todo: set<Value>)
    requires TableSoFar(w, s, copy, todo) && Grows(w, w')
    ensures TableSoFar(w', s, copy, todo)
  {
  }

  lemma FrameReady(e: World, w: World, base: World, s: Ref)
    requires FillingTable(e, w, base, s)
    ensures Inv(w, base)
  {
  }

  lemma EntryIn(e: World, w: World, base: World, s: Ref, copy: Ref, v: Value, k: Value, v': Value)
    requires FillingTable(e, w, base, s) && copy in w.dst.tables && Copied(w, v, v')
    ensures TableIn(w.dst, w.dst.tables[copy].(entries := w.dst.tables[copy].entries[k := v']))
  {
    hide Bijection, NewIdsOk, FinishOrder, TableCacheOk, FunctionCacheOk, Extends, Allocated, Copied;
    CopiedIn(w, base, v, v');
    assert TableIn(w.dst, w.dst.tables[copy]);
  }

  lemma MetaIn(e: World, w: World, base: World, s: Ref, copy: Ref, m': Option<Ref>)
    requires FillingTable(e, w, base, s) && TableSoFar(w, s, copy, {})
    requires MetaCopied(w, w.src.tables[s].meta, m')
    ensures TableIn(w.dst, w.dst.tables[copy].(meta := m'))
  {
    hide NewIdsOk, FinishOrder, TableCacheOk, FunctionCacheOk, Extends, Allocated, EntriesSoFar;
    assert TableIn(w.dst, w.dst.tables[copy]);
  }

  /** lua_rawset of a copied value. */
  lemma EntryStored(e: World, w: World, base: World, s: Ref, copy: Ref, todo: set<Value>, k: Value, v: Value)
    requires FillingTable(e, w, base, s) && TableSoFar(w, s, copy, todo)
    requires k in w.src.tables[s].entries && Basic(k) && Copied(w, w.src.tables[s].entries[k], v)
    ensures var w' := SetTable(w, copy, w.dst.tables[copy].(entries := w.dst.tables[copy].entries[k := v]));
            FillingTable(e, w', base, s) && TableSoFar(w', s, copy, todo - {k}) && Unvisited(w') == Unvisited(w)
  {
    hide Inv, Grows, Complete, NewReachable, SameInProgress;
    EntryIn(e, w, base, s, copy, w.src.tables[s].entries[k], k, v);
    var to := w.dst.tables[copy].entries;
    var w' := SetTable(w, copy, w.dst.tables[copy].(entries := to[k := v]));
    SetTableKeeps(e, w, base, s, w'.dst.tables[copy]);
    assert EntriesSoFar(w, w.src.tables[s].entries, todo - {k}, to[k := v]);
    assert GrowsCache(w, w');
    EntriesSoFarMono(w, w', w.src.tables[s].entries, todo - {k}, to[k := v]);
  }

  lemma KeyDropped(w: World, s: Ref, copy: Ref, todo: set<Value>, k: Value)
    requires TableSoFar(w, s, copy, todo) && !Basic(k)
    ensures TableSoFar(w, s, copy, todo - {k})
  {
  }

  lemma TableFrameVisited(e: World, w: World, base: World, s: Ref)
    requires FillingTable(e, w, base, s)
    ensures Visited(e, w, base, TableRef(s)) && s in w.tables
  {
  }

  /** The frame of a table closes once the table itself is complete. */
  lemma TableFrameDone(e: World, w: World, base: World, s: Ref)
    requires FillingTable(e, w, base, s) && TableCopied(w, s)
    ensures Visited(e, w, base, TableRef(s)) && Finished(e, w) && Copied(w, TableRef(s), TableRef(w.tables[s]))
  {
    hide Inv, NewReachable, SameInProgress, Extends, GrowsCache, NewCopies, NewSourceIds, EntriesCopied;
  }

  /** A table whose entry at 'k' has not come through lacks it. */
  lemma EntryMissing(w: World, w': World, s: Ref, copy: Ref, todo: set<Value>, k: Value)
    requires TableSoFar(w, s, copy, todo) && k in todo && k in w.src.tables[s].entries && Basic(k)
    requires w'.src == w.src && s in w'.tables && w'.tables[s] == copy && copy in w'.dst.tables
    requires w'.dst.tables[copy] == w.dst.tables[copy]
    ensures !TableCopied(w', s)
  {
    assert k !in w.dst.tables[copy].entries;
  }

  lemma MetaMissing(w: World, w': World, s: Ref, copy: Ref)
    requires TableSoFar(w, s, copy, {}) && w.src.tables[s].meta.Some?
    requires w'.src == w.src && s in w'.tables && w'.tables[s] == copy && copy in w'.dst.tables
    requires w'.dst.tables[copy] == w.dst.tables[copy]
    ensures !TableCopied(w', s)
  {
  }

  /** The metatable is registered: it is known from the start, or has been met. */
  lemma MetaMet(e: World, w: World, base: World, s: Ref, m: Ref)
    requires FillingTable(e, w, base, s) && m in w.srcReg.idOf && w.srcReg.idOf[m] in w.dstReg.byId
    requires m !in Known(base)
    ensures TableRef(m) in w.order
  {
    assert Inv(w, base);
    UnknownMetaCached(w, base, m);
    MetBefore(w, base, TableRef(m));
  }

  lemma MetaUnknown(e: World, w: World, base: World, s: Ref, m: Ref)
    requires FillingTable(e, w, base, s) && m in w.srcReg.idOf && w.srcReg.idOf[m] !in w.dstReg.byId
    ensures m !in Known(base)
  {
    hide Bijection, FinishOrder, TableCacheOk, FunctionCacheOk, Closed, Allocated, Extends, NoReentry, MetOk, OrderOk;
  }

  lemma NothingSoFar(w: World, s: Ref, copy: Ref)
    requires s in w.src.tables && s in w.tables && w.tables[s] == copy
    requires copy in w.dst.tables && w.dst.tables[copy] == EMPTY_TABLE
    ensures TableSoFar(w, s, copy, w.src.tables[s].entries.Keys)
  {
  }

  lemma NoMetatable(w: World, s: Ref, copy: Ref)
    requires TableSoFar(w, s, copy, {}) && w.src.tables[s].meta.None?
    ensures TableCopied(w, s)
  {
  }

  /** The key list before any key. */
  lemma NoKeys(entries: map<Value, Value>)
    ensures KeysSoFar(entries, entries.Keys, []) && At(entries, []) == []
  {
  }

  lemma NewUserdataVisited(w: World, base: World, node: Userdata, v: Value)
    requires Inv(w, base)
    ensures Visited(w, NewUserdata(w, node), base, v) && Finished(w, NewUserdata(w, node))
    ensures w.dst.nextRef !in w.dst.udata
  {
    hide Bijection, NewIdsOk, FinishOrder, TableCacheOk, FunctionCacheOk, Closed, Extends, Complete;
    NewUserdataKeeps(w, base, node);
  }

  lemma IdNotKnownBefore(e: World, w: World, base: World, s: Ref, id: nat)
    requires FillingTable(e, w, base, s) && id !in w.dstReg.byId
    ensures id !in base.dstReg.byId
  {
  }

  lemma RegisterCopyFrame(e: World, w: World, base: World, s: Ref, copy: Ref, m: Ref)
    requires FillingTable(e, w, base, s) && TableSoFar(w, s, copy, {}) && m in w.srcReg.idOf && m in w.tables
    requires w.srcReg.idOf[m] !in base.dstReg.byId
    ensures FillingTable(e, RegisterCopy(w, m), base, s) && TableSoFar(RegisterCopy(w, m), s, copy, {})
  {
    hide Inv, FillingTable, EntriesSoFar, Copied;
    FrameReady(e, w, base, s);
    RegisterCopyInv(w, base, m);
    RegisterCopyKeeps(e, w, base, s, m);
    assert GrowsCache(w, RegisterCopy(w, m));
    EntriesSoFarMono(w, RegisterCopy(w, m), w.src.tables[s].entries, {}, w.dst.tables[copy].entries);
  }

  /** lua_setmetatable completes the table. */
  lemma MetaStored(e: World, w: World, base: World, s: Ref, copy: Ref, m': Option<Ref>)
    requires FillingTable(e, w, base, s) && TableSoFar(w, s, copy, {})
    requires MetaCopied(w, w.src.tables[s].meta, m')
    ensures var w' := SetTable(w, copy, w.dst.tables[copy].(meta := m'));
            FillingTable(e, w', base, s) && TableCopied(w', s) && w'.tables[s] == copy
  {
    hide Inv, Grows, Complete, NewReachable, SameInProgress;
    var w' := SetTable(w, copy, w.dst.tables[copy].(meta := m'));
    MetaIn(e, w, base, s, copy, m');
    SetTableKeeps(e, w, base, s, w'.dst.tables[copy]);
    assert GrowsCache(w, w');
    EntriesSoFarMono(w, w', w.src.tables[s].entries, {}, w.dst.tables[copy].entries);
  }

  // ----- a child in the frame of its parent -----

  lemma EndedIn(e: World, w: World, w': World, base: World, v: Value, cs: seq<Value>, c: Value)
    requires InWork(e, w, base, v, cs, None) && Ended(w, w', base, c, None) && w'.src == w.src
    ensures InWork(e, w', base, v, cs + [c], None) && Finished(w, w')
  {
    hide Visit, InWork, Finished;
    WorkChild(e, w, w', base, v, cs, c, None);
  }

  lemma TableStopped(e: World, w: World, w': World, base: World, s: Ref, cs: seq<Value>, c: Value, open: seq<Value>)
    requires FillingTable(e, w, base, s) && InWork(e, w, base, TableRef(s), cs, None)
    requires Ended(w, w', base, c, Some(open)) && Grows(w, w') && w'.src == w.src && !TableCopied(w', s)
    ensures InWork(e, w', base, TableRef(s), cs + [c], Some(open))
  {
    hide Visit, InWork, Halted, FillingTable, TableCopied, Grows;
    HaltedInTable(e, w, w', base, s, open);
    WorkChild(e, w, w', base, TableRef(s), cs, c, Some(open));
  }

  lemma FunctionStopped(e: World, w: World, w': World, base: World, f: Ref, cs: seq<Value>, c: Value, open: seq<Value>)
    requires FillingFunction(e, w, base, f) && InWork(e, w, base, FunctionRef(f), cs, None)
    requires Ended(w, w', base, c, Some(open)) && Grows(w, w') && w'.src == w.src
    ensures InWork(e, w', base, FunctionRef(f), cs + [c], Some(open))
  {
    hide Visit, InWork, Halted, FillingFunction, Grows;
    HaltedInFunction(e, w, w', base, f, open);
    WorkChild(e, w, w', base, FunctionRef(f), cs, c, Some(open));
  }

  lemma SoFarParts(w: World, s: Ref, copy: Ref, todo: set<Value>)
    requires TableSoFar(w, s, copy, todo)
    ensures s in w.tables && w.tables[s] == copy && s in w.src.tables && copy in w.dst.tables
  {
  }

  /** A registered metatable is no child, or has been met. */
  lemma MetaNeeded(e: World, w: World, base: World, s: Ref, m: Ref, cs: seq<Value>)
    requires FillingTable(e, w, base, s) && m in w.srcReg.idOf && w.srcReg.idOf[m] in w.dstReg.byId
    requires InWork(e, w, base, TableRef(s), cs, None)
    ensures InWork(e, w, base, TableRef(s), cs + MetaChild(Some(m), Known(base)), None)
  {
    hide FillingTable, InWork, Known;
    if m in Known(base) {
      assert cs + [] == cs;
    } else {
      MetaMet(e, w, base, s, m);
      WorkNothing(e, w, base, TableRef(s), cs, TableRef(m));
    }
  }

  // ----- one Lua state -----

  class LuaState {
    var graph: Graph
    var reg: Registry
    var stack: seq<Value>

    constructor ()
      ensures graph == Graph(map[], map[], map[], 0) && reg == Registry(map[], map[]) && stack == []
    {
      graph, reg, stack := Graph(map[], map[], map[], 0), Registry(map[], map[]), [];
    }

    /** References stay inside the heap, and the metatable registry is a two-way bijection. */
    ghost predicate Valid(lastId: nat)
      reads this
    {
      && Closed(graph) && Allocated(graph)
      && Bijection(reg, graph.tables.Keys, lastId)
      && forall i | 0 <= i < |stack| :: ValueIn(graph, stack[i])
    }
  }

  /** The counter of metatable ids, shared by all states. */
  class MtIdCounter {
    var lastId: nat

    constructor ()
      ensures lastId == 0
    {
      lastId := 0;
    }
  }

  /** One call of luaG_inter_copy: 'from' and 'to' are its states, the cache lives as long as it. */
  class CopySession {
    const from: LuaState
    const to: LuaState
    const ids: MtIdCounter
    var tables: map<Ref, Ref>
    var funcs: map<Ref, CachedFunction>
    ghost var finished: seq<Ref>
    ghost var order: seq<Value>
    ghost var met: map<Ref, Met>
    ghost const base: World

    ghost function W(): World
      reads this, from, to, ids
    {
      World(from.graph, to.graph, from.reg, to.reg, tables, funcs, finished, order, met, ids.lastId)
    }

    ghost predicate Ready()
      reads this, from, to, ids
    {
      from != to && Inv(W(), base)
    }

    constructor (from: LuaState, to: LuaState, ids: MtIdCounter)
      requires from != to && from.Valid(ids.lastId) && to.Valid(ids.lastId)
      ensures this.from == from && this.to == to && this.ids == ids
      ensures tables == map[] && funcs == map[] && finished == [] && order == [] && met == map[]
      ensures Ready() && base == W()
    {
      this.from, this.to, this.ids := from, to, ids;
      tables, funcs, finished, order, met := map[], map[], [], [], map[];
      base := World(from.graph, to.graph, from.reg, to.reg, map[], map[], [], [], map[], ids.lastId);
    }

    /** The id of a metatable of the source state; a fresh one if it has none yet. */
    method GetMtId(m: Ref) returns (id: nat)
      requires Ready() && m in from.graph.tables
      modifies from`reg, ids
      ensures W() == if m in old(from.reg.idOf) then old(W()) else AssignId(old(W()), m)
      ensures m in from.reg.idOf && id == from.reg.idOf[m]
    {
      hide NewIdsOk, FinishOrder, TableCacheOk, FunctionCacheOk, Extends, Closed, Allocated;
      id := if m in from.reg.idOf then from.reg.idOf[m] else 0;
      if id == 0 {
        ids.lastId := ids.lastId + 1;
        id := ids.lastId;
        from.reg := Register(from.reg, m, id);
      }
    }

    /** GetMtId in the frame of the table 's'. */
    method AssignMtId(s: Ref, ghost copy: Ref, m: Ref, ghost e: World) returns (id: nat)
      requires from != to && FillingTable(e, W(), base, s) && TableSoFar(W(), s, copy, {}) && m in from.graph.tables
      modifies from`reg, ids
      ensures FillingTable(e, W(), base, s) && TableSoFar(W(), s, copy, {})
      ensures Unvisited(W()) == old(Unvisited(W())) && W().dst == old(W().dst)
      ensures m in from.reg.idOf && id == from.reg.idOf[m]
    {
      hide Inv, FillingTable, EntriesSoFar, Copied;
      ghost var w := W();
      FrameReady(e, w, base, s);
      id := GetMtId(m);
      if m !in w.srcReg.idOf {
        AssignIdInv(w, base, m);
        AssignIdKeeps(e, w, base, s, m);
        EntriesSoFarMono(w, W(), from.graph.tables[s].entries, {}, to.graph.tables[copy].entries);
      }
    }

    /** Two-way reference between the copied metatable and its id, at the target. */
    method RegisterMetatable(s: Ref, ghost copy: Ref, ghost m: Ref, id: nat, v: Value, ghost w: World, ghost e: World)
      returns (m': Ref)
      requires from != to && FillingTable(e, w, base, s) && FillingTable(e, W(), base, s) && Grows(w, W())
      requires TableSoFar(w, s, copy, {})
      requires m in w.srcReg.idOf && id == w.srcReg.idOf[m] && id !in w.dstReg.byId
      requires Copied(W(), TableRef(m), v)
      modifies to`reg
      ensures FillingTable(e, W(), base, s) && TableSoFar(W(), s, copy, {})
      ensures W().srcReg == old(W().srcReg) && W().dst == old(W().dst) && W().src == old(W().src)
      ensures id in to.reg.byId && to.reg.byId[id] == m' && m in from.reg.idOf && from.reg.idOf[m] == id
    {
      hide Unvisited, FillingTable, EntriesSoFar, Inv;
      m' := v.t;
      TableSoFarMono(w, W(), s, copy, {});
      IdNotKnownBefore(e, w, base, s, id);
      RegisterCopyFrame(e, W(), base, s, copy, m);
      to.reg := Register(to.reg, m', id);
    }

    /** The cached copy of 's', or a new empty table tied to the cache. */
    method PushCachedTable(s: Ref) returns (hit: bool, copy: Ref)
      requires from != to
      modifies this`tables, this`order, to`graph
      ensures hit == (s in old(tables))
      ensures W() == if hit then old(W()) else CacheNewTable(old(W()), s)
      ensures s in tables && copy == tables[s]
    {
      if s in tables {
        return true, tables[s];
      }
      copy := to.graph.nextRef;
      to.graph := to.graph.(tables := to.graph.tables[copy := EMPTY_TABLE], nextRef := copy + 1);
      tables := tables[s := copy];
      order := order + [TableRef(s)];
      hit := false;
    }

    /** The cached copy of 'f', or a new one; a function still in progress is refused. */
    method PushCachedFunc(f: Ref) returns (r: CopyResult, ghost open: seq<Value>)
      requires Ready() && f in from.graph.funcs
      requires CallStackReaches(W().src, Known(base), W().funcs, W().met, FunctionRef(f))
      modifies this`tables, this`funcs, this`finished, this`order, this`met, from`reg, to`graph, to`reg, ids
      decreases Unvisited(W()), 1
      ensures Visited(old(W()), W(), base, FunctionRef(f)) && !r.NotPushed?
      ensures Ended(old(W()), W(), base, FunctionRef(f), Stop(r.Failed?, open))
      ensures r.Pushed? ==> Copied(W(), FunctionRef(f), r.value)
      ensures r.Failed? ==> Blamed(W(), base, FunctionRef(f), r.error)
      ensures f in old(funcs) && old(funcs)[f].InProgress? ==> r == Failed(RecursiveUpvalues)
    {
      hide Unvisited, Inv, Grows, NewReachable, Complete, SameInProgress, FillingFunction, CallStackReaches, Halted,
           Visit, InWork, Ended, Blamed;
      ghost var e := W();
      open := [];
      if f !in funcs {
        met := met[f := Met(tables.Keys, funcs.Keys)];
        order := order + [FunctionRef(f)];
        funcs := funcs[f := InProgress];
        assert W() == MarkFunction(e, f);
        MarkKeeps(e, base, f);
        NotMet(e, base, FunctionRef(f));
        WorkStarts(e, W(), base, FunctionRef(f));
        r, open := InterCopyFunc(f, e);
        ghost var w := W();
        if r.Pushed? {
          FinishKeeps(e, w, base, f, r.value.f);
          funcs := funcs[f := Done(r.value.f)];
          finished := finished + [f];
          assert W() == FinishFunction(w, f, r.value.f);
          WorkKept(e, w, W(), base, FunctionRef(f), from.graph.funcs[f].upvalues);
        }
        WorkEnds(e, W(), base, FunctionRef(f), from.graph.funcs[f].upvalues, Stop(r.Failed?, open));
        open := [FunctionRef(f)] + open;
      } else if funcs[f].InProgress? {
        VisitedNothing(e, base, FunctionRef(f));
        ReentryBlamed(e, base, f);
        RefusedAtOnce(e, base, FunctionRef(f));
        r := Failed(RecursiveUpvalues);
      } else {
        VisitedNothing(e, base, FunctionRef(f));
        EndedAtOnce(e, base, FunctionRef(f));
        r := Pushed(FunctionRef(funcs[f].copy));
      }
    }

    /** Copies a function that is not in the cache: a Lua function is loaded before its upvalues are
        pushed, a C closure is built from them. */
    method InterCopyFunc(f: Ref, ghost e: World) returns (r: CopyResult, ghost open: seq<Value>)
      requires from != to && FillingFunction(e, W(), base, f) && f in from.graph.funcs
      requires InWork(e, W(), base, FunctionRef(f), [], None)
      modifies this`tables, this`funcs, this`finished, this`order, this`met, from`reg, to`graph, to`reg, ids
      decreases Unvisited(W()), 5
      ensures Visited(e, W(), base, FunctionRef(f)) && !r.NotPushed?
      ensures InWork(e, W(), base, FunctionRef(f), from.graph.funcs[f].upvalues, Stop(r.Failed?, open))
      ensures r.Failed? ==> Blamed(W(), base, FunctionRef(f), r.error)
      ensures r.Pushed? ==> r.value.FunctionRef? && FillingFunction(e, W(), base, f)
      ensures r.Pushed? ==> OwnCopy(e, W(), base, r.value.f)
      ensures r.Pushed? ==>
                && to.graph.funcs[r.value.f].code == from.graph.funcs[f].code
                && |to.graph.funcs[r.value.f].upvalues| == |from.graph.funcs[f].upvalues|
                && UpvaluesWired(W(), f, r.value.f, to.graph.funcs[r.value.f].upvalues)
    {
      hide Unvisited, Inv, Grows, NewReachable, Complete, SameInProgress, FillingFunction, Visited, Copied, Blamed,
           UpvaluesWired, InWork;
      var code, n := from.graph.funcs[f].code, |from.graph.funcs[f].upvalues|;
      var copy: Ref := 0;
      FrameVisited(e, W(), base, f);
      var node := Function(code, seq(n, _ => Nil));
      ghost var w := W();
      if code.LuaCode? {
        copy := LoadFunction(f, node, e);
      }
      WorkKept(e, w, W(), base, FunctionRef(f), []);
      var pushed;
      r, pushed, open := PushUpvalues(f, copy, node, e);
      if r.Failed? {
        return;
      }
      w := W();
      if code.LuaCode? {
        SetUpvalues(f, copy, [FunctionRef(copy)] + pushed, e);
      } else {
        WiredIn(e, W(), base, f, copy, pushed, code);
        WiredCCode(W(), f, copy, to.graph.nextRef, pushed, Function(code, pushed));
        copy := LoadFunction(f, Function(code, pushed), e);
      }
      WorkKept(e, w, W(), base, FunctionRef(f), from.graph.funcs[f].upvalues);
      FrameVisited(e, W(), base, f);
      r := Pushed(FunctionRef(copy));
    }

    /** lua_load or lua_pushcclosure at the target. */
    method LoadFunction(ghost f: Ref, node: Function, ghost e: World) returns (copy: Ref)
      requires from != to && FillingFunction(e, W(), base, f) && FunctionIn(to.graph, node)
      modifies to`graph
      ensures FillingFunction(e, W(), base, f) && OwnCopy(e, W(), base, copy)
      ensures W() == NewFunction(old(W()), node) && copy == old(to.graph.nextRef)
      ensures Unvisited(W()) == old(Unvisited(W()))
    {
      hide Inv, Grows, FillingFunction;
      copy := to.graph.nextRef;
      NewFunctionKeeps(e, W(), base, f, node);
      to.graph := to.graph.(funcs := to.graph.funcs[copy := node], nextRef := copy + 1);
    }

    /** Pushes the upvalues of 'f' in order; the loaded Lua function 'copy' lies below them. */
    method PushUpvalues(f: Ref, copy: Ref, ghost node: Function, ghost e: World)
      returns (r: CopyResult, pushed: seq<Value>, ghost open: seq<Value>)
      requires from != to && FillingFunction(e, W(), base, f) && f in from.graph.funcs
      requires InWork(e, W(), base, FunctionRef(f), [], None)
      requires from.graph.funcs[f].code.LuaCode? ==> IsLoaded(e, W(), base, copy, node)
      modifies this`tables, this`funcs, this`finished, this`order, this`met, from`reg, to`graph, to`reg, ids
      decreases Unvisited(W()), 4
      ensures Visited(e, W(), base, FunctionRef(f))
      ensures InWork(e, W(), base, FunctionRef(f), from.graph.funcs[f].upvalues, Stop(r.Failed?, open))
      ensures r.Failed? ==> Blamed(W(), base, FunctionRef(f), r.error)
      ensures !r.Failed? ==> FillingFunction(e, W(), base, f)
      ensures !r.Failed? ==> |pushed| == |from.graph.funcs[f].upvalues| && UpvaluesWired(W(), f, copy, pushed)
      ensures !r.Failed? && from.graph.funcs[f].code.LuaCode? ==> IsLoaded(e, W(), base, copy, node)
    {
      hide Unvisited, Inv, Grows, NewReachable, Complete, SameInProgress, FillingFunction, Visited, Copied, Blamed,
           UpvaluesWired, IsLoaded, OwnCopy, InWork;
      ghost var measure := Unvisited(W());
      var ups := from.graph.funcs[f].upvalues;
      FrameVisited(e, W(), base, f);
      WiredNothing(W(), f, copy);
      r, pushed, open := NotPushed, [], [];
      var n := 0;
      while n < |ups|
        invariant 0 <= n <= |ups| && |pushed| == n && !r.Failed?
        invariant FillingFunction(e, W(), base, f) && Visited(e, W(), base, FunctionRef(f))
        invariant InWork(e, W(), base, FunctionRef(f), ups[..n], None)
        invariant Unvisited(W()) <= measure
        invariant UpvaluesWired(W(), f, copy, pushed)
        invariant from.graph.funcs[f].code.LuaCode? ==> IsLoaded(e, W(), base, copy, node)
      {
        ghost var w := W();
        assert ups[..n + 1] == ups[..n] + [ups[n]];
        if from.graph.funcs[f].code.LuaCode? && ups[n] == FunctionRef(f) {
          WiredSelf(w, f, copy, pushed);
          WorkNothing(e, w, base, FunctionRef(f), ups[..n], ups[n]);
          var stack := [FunctionRef(copy)] + pushed;
          pushed := pushed + [stack[|stack| - n - 1]];
        } else {
          r, open := PushUpvalue(f, n, e, copy, pushed);
          if r.Failed? {
            WorkStops(e, W(), base, FunctionRef(f), ups[..n + 1], ups[n + 1..], open);
            assert ups[..n + 1] + ups[n + 1..] == ups;
            return;
          }
          VisitKeepsOwn(e, w, W(), base, copy);
          pushed := pushed + [r.value];
        }
        n := n + 1;
      }
      assert ups[..n] == ups;
    }

    /** Pops the upvalues off the stack, last first, into the loaded function below them. */
    method SetUpvalues(f: Ref, copy: Ref, stack: seq<Value>, ghost e: World)
      requires from != to && FillingFunction(e, W(), base, f) && f in from.graph.funcs
      requires OwnCopy(e, W(), base, copy)
      requires |stack| == 1 + |from.graph.funcs[f].upvalues| && UpvaluesWired(W(), f, copy, stack[1..])
      modifies to`graph
      ensures FillingFunction(e, W(), base, f) && OwnCopy(e, W(), base, copy)
      ensures to.graph.funcs[copy] == Function(old(to.graph.funcs[copy].code), stack[1..])
      ensures UpvaluesWired(W(), f, copy, stack[1..])
    {
      hide Unvisited, Inv, FillingFunction, UpvaluesWired;
      var n := |stack| - 1;
      var st := stack;
      var ups := seq(n, _ => Nil);
      while n > 0
        invariant 0 <= n <= |ups| == |stack| - 1 && st == stack[..n + 1]
        invariant forall i | n <= i < |ups| :: ups[i] == stack[i + 1]
      {
        ups := ups[n - 1 := st[|st| - 1]];
        st := st[..|st| - 1];
        n := n - 1;
      }
      assert ups == stack[1..];
      var node := Function(to.graph.funcs[copy].code, ups);
      WiredIn(e, W(), base, f, copy, ups, node.code);
      SetFunctionKeeps(e, W(), base, f, copy, node);
      WiredMono(W(), SetFunction(W(), copy, node), f, copy, ups);
      to.graph := to.graph.(funcs := to.graph.funcs[copy := node]);
    }

    /** Pushes the copy of upvalue 'n' of 'f'. */
    method PushUpvalue(f: Ref, n: nat, ghost e: World, ghost copy: Ref, ghost ups: seq<Value>)
      returns (r: CopyResult, ghost open: seq<Value>)
      requires from != to && FillingFunction(e, W(), base, f) && f in from.graph.funcs
      requires n == |ups| && UpvaluesWired(W(), f, copy, ups)
      requires n < |from.graph.funcs[f].upvalues| && !SelfUpvalue(from.graph, f, n)
      requires InWork(e, W(), base, FunctionRef(f), from.graph.funcs[f].upvalues[..n], None)
      modifies this`tables, this`funcs, this`finished, this`order, this`met, from`reg, to`graph, to`reg, ids
      decreases Unvisited(W()), 3
      ensures Visited(e, W(), base, FunctionRef(f)) && !r.NotPushed?
      ensures InWork(e, W(), base, FunctionRef(f), from.graph.funcs[f].upvalues[..n + 1], Stop(r.Failed?, open))
      ensures r.Failed? ==> Blamed(W(), base, FunctionRef(f), r.error)
      ensures r.Pushed? ==> Grows(old(W()), W()) && FillingFunction(e, W(), base, f)
      ensures r.Pushed? ==> UpvaluesWired(W(), f, copy, ups + [r.value])
    {
      hide Unvisited, Inv, Grows, NewReachable, Complete, SameInProgress, FillingFunction, CallStackReaches, Visited,
           Finished, Copied, Edge, CopyEdge, Blamed, GrowsCache, UpvaluesWired, InWork, Ended;
      ghost var w := W();
      var up := from.graph.funcs[f].upvalues[n];
      UpvalueReady(e, w, base, f, n);
      r, open := InterCopyOne(up, VtNormal);
      assert from.graph.funcs[f].upvalues[..n + 1] == from.graph.funcs[f].upvalues[..n] + [up];
      if r.Pushed? {
        EndedIn(e, w, W(), base, FunctionRef(f), from.graph.funcs[f].upvalues[..n], up);
        UpvaluePushed(e, w, W(), base, f, copy, ups, r.value);
      } else {
        r := Failed(if r.Failed? then r.error else UnsupportedType);
        UpvalueFailed(e, w, W(), base, f, n, r.error);
        FunctionStopped(e, w, W(), base, f, from.graph.funcs[f].upvalues[..n], up, open);
      }
    }

    /** Copies the entries at basic keys, in whatever order lua_next yields them. */
    method CopyEntries(s: Ref, copy: Ref, ghost e: World)
      returns (r: CopyResult, ghost ks: seq<Value>, ghost open: seq<Value>)
      requires from != to && FillingTable(e, W(), base, s) && s in from.graph.tables
      requires TableSoFar(W(), s, copy, from.graph.tables[s].entries.Keys)
      requires InWork(e, W(), base, TableRef(s), [], None)
      modifies this`tables, this`funcs, this`finished, this`order, this`met, from`reg, to`graph, to`reg, ids
      decreases Unvisited(W()), 4
      ensures Visited(e, W(), base, TableRef(s)) && KeysSoFar(from.graph.tables[s].entries, {}, ks)
      ensures forall k | k in ks :: k in from.graph.tables[s].entries
      ensures InWork(e, W(), base, TableRef(s), At(from.graph.tables[s].entries, ks), Stop(r.Failed?, open))
      ensures r.Failed? ==> Blamed(W(), base, TableRef(s), r.error)
      ensures !r.Failed? ==> FillingTable(e, W(), base, s) && TableSoFar(W(), s, copy, {})
      ensures !r.Failed? ==> Unvisited(W()) <= old(Unvisited(W()))
    {
      hide Unvisited, Inv, Grows, NewReachable, Complete, SameInProgress, FillingTable, Visited, Copied, Blamed,
           TableSoFar, InWork, KeysSoFar;
      TableFrameVisited(e, W(), base, s);
      r, ks, open := NotPushed, [], [];
      var entries := from.graph.tables[s].entries;
      var todo := entries.Keys;
      NoKeys(entries);
      while todo != {}
        invariant todo <= entries.Keys && !r.Failed?
        invariant FillingTable(e, W(), base, s) && Visited(e, W(), base, TableRef(s))
        invariant TableSoFar(W(), s, copy, todo)
        invariant KeysSoFar(entries, todo, ks) && (forall k | k in ks :: k in entries)
        invariant InWork(e, W(), base, TableRef(s), At(entries, ks), None)
        invariant Unvisited(W()) <= old(Unvisited(W()))
        decreases todo
      {
        var k :| k in todo;
        KeysMore(entries, todo, ks, k);
        r, open := CopyEntry(s, copy, k, todo, At(entries, ks), e);
        if Basic(k) {
          ks := ks + [k];
        }
        todo := todo - {k};
        if r.Failed? {
          ghost var rest := KeysToCome(entries, todo, ks);
          WorkStops(e, W(), base, TableRef(s), At(entries, ks), At(entries, rest), open);
          ks := ks + rest;
          return;
        }
        TableFrameVisited(e, W(), base, s);
      }
    }

    method CopyEntry(s: Ref, copy: Ref, k: Value, ghost todo: set<Value>, ghost cs: seq<Value>, ghost e: World)
      returns (r: CopyResult, ghost open: seq<Value>)
      requires from != to && FillingTable(e, W(), base, s) && s in from.graph.tables
      requires k in from.graph.tables[s].entries && k in todo && TableSoFar(W(), s, copy, todo)
      requires InWork(e, W(), base, TableRef(s), cs, None)
      modifies this`tables, this`funcs, this`finished, this`order, this`met, from`reg, to`graph, to`reg, ids
      decreases Unvisited(W()), 3
      ensures Visited(e, W(), base, TableRef(s))
      ensures Basic(k) ==>
                InWork(e, W(), base, TableRef(s), cs + [from.graph.tables[s].entries[k]], Stop(r.Failed?, open))
      ensures !Basic(k) ==> !r.Failed? && InWork(e, W(), base, TableRef(s), cs, None)
      ensures r.Failed? ==> Blamed(W(), base, TableRef(s), r.error)
      ensures !r.Failed? ==> FillingTable(e, W(), base, s) && TableSoFar(W(), s, copy, todo - {k})
      ensures !r.Failed? ==> Unvisited(W()) <= old(Unvisited(W()))
    {
      hide Unvisited, Inv, Grows, NewReachable, Complete, SameInProgress, FillingTable, Visited, Copied, Blamed, Edge,
           CopyEdge, TableSoFar, CallStackReaches, Finished, InWork, Ended, TableCopied;
      ghost var w := W();
      TableFrameVisited(e, w, base, s);
      FrameReady(e, w, base, s);
      var key;
      key, open := InterCopyOne(k, VtKey);
      if key.Pushed? {
        var v := from.graph.tables[s].entries[k];
        EntryReady(e, w, base, s, k);
        r, open := InterCopyOne(v, VtNormal);
        ghost var w1 := W();
        VisitInTable(e, w, w1, base, s, v);
        if r.Pushed? {
          EndedIn(e, w, w1, base, TableRef(s), cs, v);
          GrowsUnvisited(w, w1);
          TableSoFarMono(w, w1, s, copy, todo);
          EntryStored(e, w1, base, s, copy, todo, k, r.value);
          SoFarParts(w1, s, copy, todo);
          var node := to.graph.tables[copy];
          node := node.(entries := node.entries[key.value := r.value]);
          to.graph := to.graph.(tables := to.graph.tables[copy := node]);
          TableFrameVisited(e, W(), base, s);
          WorkKept(e, w1, W(), base, TableRef(s), cs + [v]);
        } else {
          r := Failed(if r.Failed? then r.error else UnsupportedType);
          SoFarParts(w, s, copy, todo);
          EntryMissing(w, w1, s, copy, todo, k);
          TableStopped(e, w, w1, base, s, cs, v, open);
          BlamedStep(w1, base, TableRef(s), v, r.error);
        }
      } else {
        KeyDropped(w, s, copy, todo, k);
        r := NotPushed;
      }
    }

    /** Gives the copy of 's' its metatable: the one known at the target under the id of the source's,
        or else a copy, which the target then knows. */
    method CopyMetatable(s: Ref, copy: Ref, ghost cs: seq<Value>, ghost e: World)
      returns (r: CopyResult, ghost open: seq<Value>)
      requires from != to && FillingTable(e, W(), base, s) && s in from.graph.tables
      requires TableSoFar(W(), s, copy, {}) && from.graph.tables[s].meta.Some?
      requires InWork(e, W(), base, TableRef(s), cs, None)
      modifies this`tables, this`funcs, this`finished, this`order, this`met, from`reg, to`graph, to`reg, ids
      decreases Unvisited(W()), 4
      ensures Visited(e, W(), base, TableRef(s))
      ensures InWork(e, W(), base, TableRef(s), cs + MetaChild(from.graph.tables[s].meta, Known(base)),
                     Stop(r.Failed?, open))
      ensures r.Failed? ==> Blamed(W(), base, TableRef(s), r.error)
      ensures !r.Failed? ==> FillingTable(e, W(), base, s) && TableCopied(W(), s) && W().tables[s] == copy
    {
      hide Unvisited, Inv, Grows, NewReachable, Complete, SameInProgress, FillingTable, Visited, Copied, Blamed, Edge,
           CopyEdge, EntriesSoFar, CallStackReaches, Finished, TableCopied, InWork, Ended, Known;
      var m := from.graph.tables[s].meta.value;
      ghost var w0 := W();
      MetaReady(e, w0, base, s);
      var id := AssignMtId(s, copy, m, e);
      open := [];
      var m';
      if id in to.reg.byId {
        m' := to.reg.byId[id];
        WorkKept(e, w0, W(), base, TableRef(s), cs);
        MetaNeeded(e, W(), base, s, m, cs);
      } else {
        ghost var w := W();
        WorkKept(e, w0, w, base, TableRef(s), cs);
        MetaReady(e, w, base, s);
        MetaStack(e, w, base, s, m);
        MetaUnknown(e, w, base, s, m);
        r, open := InterCopyOne(TableRef(m), VtMetatable);
        ghost var w1 := W();
        VisitInTable(e, w, w1, base, s, TableRef(m));
        if !r.Pushed? {
          r := Failed(if r.Failed? then r.error else UnsupportedType);
          MetaMissing(w, w1, s, copy);
          TableStopped(e, w, w1, base, s, cs, TableRef(m), open);
          BlamedStep(w1, base, TableRef(s), TableRef(m), r.error);
          return;
        }
        EndedIn(e, w, w1, base, TableRef(s), cs, TableRef(m));
        m' := RegisterMetatable(s, copy, m, id, r.value, w, e);
        WorkKept(e, w1, W(), base, TableRef(s), cs + [TableRef(m)]);
      }
      ghost var w2 := W();
      MetaStored(e, W(), base, s, copy, Some(m'));
      to.graph := to.graph.(tables := to.graph.tables[copy := to.graph.tables[copy].(meta := Some(m'))]);
      WorkKept(e, w2, W(), base, TableRef(s), cs + MetaChild(Some(m), Known(base)));
      TableFrameVisited(e, W(), base, s);
      r := NotPushed;
    }

    /** Copies the value 'v'; the copy is pushed unless its type is not supported in this position. */
    method InterCopyOne(v: Value, vt: ValueType) returns (r: CopyResult, ghost open: seq<Value>)
      requires Ready()
      requires !vt.VtKey? ==> ValueIn(from.graph, v) && CallStackReaches(W().src, Known(base), W().funcs, W().met, v)
      modifies this`tables, this`funcs, this`finished, this`order, this`met, from`reg, to`graph, to`reg, ids
      decreases Unvisited(W()), 2
      ensures vt.VtKey? ==> W() == old(W()) && r == if Basic(v) then Pushed(v) else NotPushed
      ensures !vt.VtKey? ==> Visited(old(W()), W(), base, v) && (r.NotPushed? <==> v.ThreadRef?)
      ensures !vt.VtKey? ==> Ended(old(W()), W(), base, v, Stop(!r.Pushed?, open))
      ensures !vt.VtKey? && r.Pushed? ==> Copied(W(), v, r.value)
      ensures !vt.VtKey? && r.NotPushed? ==> Blamed(W(), base, v, UnsupportedType)
      ensures r.Failed? ==> !vt.VtKey? && Blamed(W(), base, v, r.error)
    {
      hide Unvisited, Inv, Grows, NewReachable, Complete, SameInProgress, CallStackReaches, Finished, FillingTable,
           Ended;
      ghost var e := W();
      VisitedNothing(e, base, v);
      open := [];
      if !Cached(v) {
        if v.ThreadRef? { RefusedAtOnce(e, base, v); } else { EndedAtOnce(e, base, v); }
      }
      match v {
        case Boolean(_) => r := Pushed(v);
        case Number(_) => r := Pushed(v);
        case Str(_) => r := Pushed(v);
        case LightUserdata(_) => r := Pushed(v);
        case UserdataRef(u) =>
          if vt.VtKey? { return NotPushed, open; }
          r := CopyUserdata(u);
        case Nil =>
          if vt.VtKey? { return NotPushed, open; }
          r := Pushed(Nil);
        case FunctionRef(f) =>
          if vt.VtKey? { return NotPushed, open; }
          r, open := PushCachedFunc(f);
        case TableRef(t) =>
          if vt.VtKey? { return NotPushed, open; }
          r, open := CopyTable(t);
        case ThreadRef(_) =>
          r := NotPushed;
      }
    }

    method CopyUserdata(u: Ref) returns (r: CopyResult)
      requires Ready() && u in from.graph.udata
      modifies to`graph
      ensures Visited(old(W()), W(), base, UserdataRef(u)) && Ended(old(W()), W(), base, UserdataRef(u), None)
      ensures r.Pushed? && Copied(W(), UserdataRef(u), r.value)
    {
      hide Unvisited, Inv, Grows, NewReachable, Complete, SameInProgress, Finished, Walked;
      ghost var e := W();
      VisitedNothing(e, base, UserdataRef(u));
      EndedAtOnce(e, base, UserdataRef(u));
      match from.graph.udata[u] {
        case DeepProxy(_, _) =>
          NewUserdataVisited(e, base, from.graph.udata[u], UserdataRef(u));
          r := Pushed(UserdataRef(to.graph.nextRef));
          to.graph := to.graph.(udata := to.graph.udata[to.graph.nextRef := from.graph.udata[u]],
                                nextRef := to.graph.nextRef + 1);
        case FullUserdata(address) =>
          r := Pushed(LightUserdata(address));
      }
    }

    method CopyTable(t: Ref) returns (r: CopyResult, ghost open: seq<Value>)
      requires Ready() && t in from.graph.tables
      requires CallStackReaches(W().src, Known(base), W().funcs, W().met, TableRef(t))
      modifies this`tables, this`funcs, this`finished, this`order, this`met, from`reg, to`graph, to`reg, ids
      decreases Unvisited(W()), 1
      ensures Visited(old(W()), W(), base, TableRef(t)) && !r.NotPushed?
      ensures Ended(old(W()), W(), base, TableRef(t), Stop(r.Failed?, open))
      ensures r.Pushed? ==> Copied(W(), TableRef(t), r.value)
      ensures r.Failed? ==> Blamed(W(), base, TableRef(t), r.error)
    {
      hide Unvisited, Inv, Grows, NewReachable, Complete, SameInProgress, CallStackReaches, Finished, FillingTable,
           EntriesSoFar, TableCopied, Blamed, Visited, InWork, Ended, KeysSoFar, Known;
      ghost var e := W();
      VisitedNothing(e, base, TableRef(t));
      open := [];
      var hit, copy := PushCachedTable(t);
      if hit {
        EndedAtOnce(e, base, TableRef(t));
        return Pushed(TableRef(copy)), open;
      }
      NewTableKeeps(e, base, t);
      NotMet(e, base, TableRef(t));
      WorkStarts(e, W(), base, TableRef(t));
      NothingSoFar(W(), t, copy);
      ghost var ks;
      r, ks, open := CopyEntries(t, copy, e);
      ghost var cs, meta := At(from.graph.tables[t].entries, ks), MetaChild(from.graph.tables[t].meta, Known(base));
      AllKeysCome(from.graph.tables[t], Known(base), ks);
      if r.Failed? {
        WorkStops(e, W(), base, TableRef(t), cs, meta, open);
      } else if from.graph.tables[t].meta.Some? {
        r, open := CopyMetatable(t, copy, cs, e);
      } else {
        NoMetatable(W(), t, copy);
        assert cs + meta == cs;
      }
      if !r.Failed? {
        TableFrameDone(e, W(), base, t);
        r := Pushed(TableRef(copy));
      }
      WorkEnds(e, W(), base, TableRef(t), cs + meta, Stop(r.Failed?, open));
      open := [TableRef(t)] + open;
    }
  }

  // ----- the whole call -----

  /** One call, from world 'w' to 'w'': the values are copied, and with them what they reach. */
  ghost predicate CopiedAll(w: World, w': World, values: seq<Value>, copies: seq<Value>) {
    && w.tables == map[] && w.funcs == map[] && w.order == [] && w.met == map[]
    && Inv(w', w) && Grows(w, w') && Complete(w, w', {}, {})
    && UpvaluesCopied(w', values, copies)
    && FromValues(w', values)
  }

  /** Only objects that the values reach have been cached. */
  ghost predicate FromValues(w: World, values: seq<Value>) {
    && (forall s | s in w.tables :: ReachedFrom(w.src, values, TableRef(s)))
    && (forall f | f in w.funcs :: ReachedFrom(w.src, values, FunctionRef(f)))
  }

  lemma NextValueCopied(w: World, w1: World, w2: World, values: seq<Value>, copies: seq<Value>, v: Value, v': Value)
    requires CopiedAll(w, w1, values, copies) && SameInProgress(w.funcs, w1.funcs)
    requires Visited(w1, w2, w, v) && Finished(w1, w2) && Copied(w2, v, v')
    ensures CopiedAll(w, w2, values + [v], copies + [v']) && SameInProgress(w.funcs, w2.funcs)
  {
    FromValuesMore(w1, w2, values, v);
    hide Inv, Copied, NewReachable, FromValues, NewCopies, NewSourceIds, TableCopied, FunctionCopied;
    GrowsTrans(w, w1, w2);
    CompleteTrans(w, w1, w2, {}, {});
    UpvaluesCopiedMono(w1, w2, values, copies);
    UpvaluesMore(w2, values, copies, v, v');
    hide UpvaluesCopied;
  }

  lemma UpvaluesMore(w: World, values: seq<Value>, copies: seq<Value>, v: Value, v': Value)
    requires UpvaluesCopied(w, values, copies) && Copied(w, v, v')
    ensures UpvaluesCopied(w, values + [v], copies + [v'])
  {
  }

  lemma FromValuesMore(w1: World, w2: World, values: seq<Value>, v: Value)
    requires FromValues(w1, values) && NewReachable(w1, w2, v) && w2.src == w1.src
    ensures FromValues(w2, values + [v])
  {
    hide ReachedFrom, Reaches;
    forall s | s in w2.tables ensures ReachedFrom(w2.src, values + [v], TableRef(s)) {
      ReachedFromMore(w1.src, values, v, TableRef(s));
    }
    forall f | f in w2.funcs ensures ReachedFrom(w2.src, values + [v], FunctionRef(f)) {
      ReachedFromMore(w1.src, values, v, FunctionRef(f));
    }
  }

  lemma ReachedFromMore(g: Graph, values: seq<Value>, v: Value, y: Value)
    ensures ReachedFrom(g, values, y) || Reaches(g, v, y) ==> ReachedFrom(g, values + [v], y)
  {
    hide Reaches;
    if i :| 0 <= i < |values| && Reaches(g, values[i], y) {
      assert (values + [v])[i] == values[i];
    } else {
      assert (values + [v])[|values|] == v;
    }
  }

  /** How a call ends that has found its values. They have been visited in turn, depth first; it fails for
      recursion exactly if it has met a function that leads back to itself through objects that it had not
      met before; and exactly the objects of 'open', in which it has stopped, are half copied. */
  ghost predicate CallOutcome(w: World, w': World, values: seq<Value>, error: Option<CopyError>, open: seq<Value>) {
    && w.tables == map[] && w.funcs == map[] && w.order == [] && w.met == map[]
    && Inv(w', w) && Grows(w, w')
    && WalkedAll(w.src, Known(w), [], w'.order, values, Stop(error.Some?, open))
    && Halted(w, w', open)
    && (match error
        case None => open == [] && !Stuck(w.src, Known(w), w'.met)
        case Some(e) =>
          && !e.NotEnoughValues? && (exists i :: 0 <= i < |values| && Justified(w.src, values[i], e))
          && (e.RecursiveUpvalues? ==> Stuck(w.src, Known(w), w'.met)))
  }

  /** luaG_inter_copy: copies the top 'n' values of 'L' onto the stack of 'L2', with one cache. */
  method InterCopy(L: LuaState, L2: LuaState, ids: MtIdCounter, n: nat)
    returns (error: Option<CopyError>, ghost w: World, ghost w': World, ghost open: seq<Value>)
    requires L != L2 && L.Valid(ids.lastId) && L2.Valid(ids.lastId)
    modifies L`reg, L2, ids
    ensures L.Valid(ids.lastId) && L2.Valid(ids.lastId) && old(ids.lastId) <= ids.lastId
    ensures GrowsRegistry(old(L.reg), L.reg) && GrowsRegistry(old(L2.reg), L2.reg)
    ensures Extends(old(L2.graph), L2.graph)
    ensures error == Some(NotEnoughValues) <==> n > |L.stack|
    ensures n <= |L.stack| ==>
              && w == World(L.graph, old(L2.graph), old(L.reg), old(L2.reg), map[], map[], [], [], map[],
                            old(ids.lastId))
              && w'.src == L.graph && w'.dst == L2.graph && w'.srcReg == L.reg && w'.dstReg == L2.reg
              && CallOutcome(w, w', L.stack[|L.stack| - n..], error, open)
    ensures error.None? ==>
              && |L2.stack| == |old(L2.stack)| + n && L2.stack[..|old(L2.stack)|] == old(L2.stack)
              && CopiedAll(w, w', L.stack[|L.stack| - n..], L2.stack[|old(L2.stack)|..])
    ensures error.Some? ==> L2.stack == old(L2.stack)
  {
    hide Grows, Complete, SameInProgress, Visited, Ended, UpvaluesCopied, FromValues, Copied, CallStackReaches,
         NewIdsOk, FinishOrder, TableCacheOk, FunctionCacheOk, Closed, Allocated, Bijection, Extends,
         GrowsRegistry, CopiedAll, Inv, WalkedAll, CallOutcome, Blamed;
    var session := new CopySession(L, L2, ids);
    w := session.W();
    w', open := w, [];
    NothingCopied(w);
    WorldValid(w, w);
    error := None;
    if n > |L.stack| {
      return Some(NotEnoughValues), w, w, open;
    }
    var top, copies := |L.stack|, [];
    var i := top - n;
    assert L.stack[top - n..i] == [];
    while i < top
      invariant top - n <= i <= top && |copies| == i - (top - n)
      invariant session.base == w && session.from == L && session.to == L2 && session.ids == ids
      invariant CopiedAll(w, session.W(), L.stack[top - n..i], copies)
      invariant SameInProgress(w.funcs, session.W().funcs)
      invariant L2.stack == old(L2.stack) && w' == session.W()
      invariant WalkedAll(w.src, Known(w), [], w'.order, L.stack[top - n..i], None)
    {
      var v := L.stack[i];
      CallReady(w, w', L.stack[top - n..i], copies, v);
      var r;
      r, open := session.InterCopyOne(v, VtNormal);
      ghost var w1 := w';
      w' := session.W();
      assert L.stack[top - n..i + 1] == L.stack[top - n..i] + [v];
      if !r.Pushed? {
        error := Some(if r.Failed? then r.error else UnsupportedType);
        assert L.stack[top - n..] == L.stack[top - n..i] + [v] + L.stack[i + 1..];
        CallBroken(w, w1, w', L.stack[top - n..i], copies, v, L.stack[i + 1..], error, open);
        WorldValid(w, w');
        return;
      }
      NextValue(w, w1, w', L.stack[top - n..i], copies, v, r.value);
      copies := copies + [r.value];
      i := i + 1;
    }
    open := [];
    CallDone(w, w', L.stack[top - n..i], copies);
    WorldValid(w, w');
    assert L.stack[top - n..i] == L.stack[top - n..];
    L2.stack := L2.stack + copies;
    assert L2.stack[|old(L2.stack)|..] == copies;
  }

  lemma NothingCopied(w: World)
    requires Inv(w, w) && w.tables == map[] && w.funcs == map[] && w.order == [] && w.met == map[]
    ensures CopiedAll(w, w, [], []) && SameInProgress(w.funcs, w.funcs) && Grows(w, w)
    ensures WalkedAll(w.src, Known(w), [], w.order, [], None)
  {
  }

  lemma CallReady(w: World, w1: World, values: seq<Value>, copies: seq<Value>, v: Value)
    requires CopiedAll(w, w1, values, copies) && SameInProgress(w.funcs, w1.funcs)
    ensures Inv(w1, w) && CallStackReaches(w1.src, Known(w), w1.funcs, w1.met, v)
  {
  }

  /** After the visit of one more value, completed or not. */
  lemma CallVisited(w: World, w1: World, w2: World, values: seq<Value>, copies: seq<Value>, v: Value)
    requires CopiedAll(w, w1, values, copies) && Visited(w1, w2, w, v)
    ensures Inv(w2, w) && Grows(w, w2) && w2.src == w.src && w1.src == w.src
    ensures w.tables == map[] && w.funcs == map[] && w.order == [] && w.met == map[]
  {
    hide Inv, Complete, UpvaluesCopied, FromValues, NewReachable, Extends, GrowsCache, NewCopies, NewSourceIds;
    GrowsTrans(w, w1, w2);
  }

  lemma NextWalked(w: World, w1: World, w2: World, values: seq<Value>, v: Value, stop: Option<seq<Value>>)
    requires WalkedAll(w.src, Known(w), [], w1.order, values, None) && w1.src == w.src
    requires Ended(w1, w2, w, v, stop)
    ensures WalkedAll(w.src, Known(w), [], w2.order, values + [v], stop)
  {
    hide Walked, WalkedAll, Halted, Finished;
    assert [] + w1.order == w1.order && w1.order + w2.order[|w1.order|..] == w2.order;
    OneMoreWalked(w.src, Known(w), [], w1.order, values, w2.order[|w1.order|..], v, stop);
  }

  /** Before the value that stopped the call, everything was complete. */
  lemma CallHalted(w: World, w1: World, w2: World, values: seq<Value>, copies: seq<Value>, v: Value, open: seq<Value>)
    requires CopiedAll(w, w1, values, copies) && Grows(w1, w2) && Ended(w1, w2, w, v, Some(open))
    ensures Halted(w, w2, open)
  {
    hide Inv, UpvaluesCopied, FromValues, Visit, TableCopied, FunctionCopied, Extends, NewCopies, NewSourceIds;
    forall t | t in w1.tables ensures TableCopied(w2, t) {
      TableCopiedStays(w1, w2, t);
    }
    forall f | f in w1.funcs ensures FunctionCopied(w2, f) {
      FunctionCopiedStays(w1, w2, f);
    }
  }

  lemma BlameParts(w: World, base: World, v: Value, error: CopyError)
    requires Blamed(w, base, v, error)
    ensures Justified(w.src, v, error) && !error.NotEnoughValues?
    ensures error.RecursiveUpvalues? ==> Stuck(w.src, Known(base), w.met)
  {
  }

  lemma CallBroken(w: World, w1: World, w2: World, values: seq<Value>, copies: seq<Value>, v: Value,
                   later: seq<Value>, error: Option<CopyError>, open: seq<Value>)
    requires CopiedAll(w, w1, values, copies) && Visited(w1, w2, w, v)
    requires WalkedAll(w.src, Known(w), [], w1.order, values, None) && Ended(w1, w2, w, v, Some(open))
    requires error.Some? && Blamed(w2, w, v, error.value)
    ensures Inv(w2, w) && Grows(w, w2) && CallOutcome(w, w2, values + [v] + later, error, open)
    ensures !error.value.NotEnoughValues?
  {
    hide Inv, Grows, Visited, WalkedAll, CopiedAll, Blamed, Justified, Stuck, CallOutcome, Ended, Halted;
    CallVisited(w, w1, w2, values, copies, v);
    BlameParts(w2, w, v, error.value);
    NextWalked(w, w1, w2, values, v, Some(open));
    StoppedBefore(w.src, Known(w), [], w2.order, values + [v], later, open);
    VisitGrows(w1, w2, w, v);
    CallHalted(w, w1, w2, values, copies, v, open);
    var all := values + [v] + later;
    assert all[|values|] == v;
    FailedOutcome(w, w2, all, |values|, error, open);
  }

  lemma VisitGrows(w: World, w': World, base: World, v: Value)
    requires Visited(w, w', base, v)
    ensures Grows(w, w')
  {
  }

  lemma FailedOutcome(w: World, w': World, all: seq<Value>, i: nat, error: Option<CopyError>, open: seq<Value>)
    requires w.tables == map[] && w.funcs == map[] && w.order == [] && w.met == map[]
    requires Inv(w', w) && Grows(w, w') && WalkedAll(w.src, Known(w), [], w'.order, all, Some(open))
    requires Halted(w, w', open) && i < |all| && error.Some? && Justified(w.src, all[i], error.value)
    requires !error.value.NotEnoughValues? && (error.value.RecursiveUpvalues? ==> Stuck(w.src, Known(w), w'.met))
    ensures CallOutcome(w, w', all, error, open)
  {
    hide Inv, Grows, WalkedAll, Halted, Justified, Stuck;
  }

  lemma NextValue(w: World, w1: World, w2: World, values: seq<Value>, copies: seq<Value>, v: Value, v': Value)
    requires CopiedAll(w, w1, values, copies) && SameInProgress(w.funcs, w1.funcs)
    requires Visited(w1, w2, w, v) && Ended(w1, w2, w, v, None) && Copied(w2, v, v')
    requires WalkedAll(w.src, Known(w), [], w1.order, values, None)
    ensures CopiedAll(w, w2, values + [v], copies + [v']) && SameInProgress(w.funcs, w2.funcs)
    ensures WalkedAll(w.src, Known(w), [], w2.order, values + [v], None)
  {
    hide CopiedAll, SameInProgress, Visited, Finished, Copied, Visit, WalkedAll;
    NextValueCopied(w, w1, w2, values, copies, v, v');
    CallVisited(w, w1, w2, values, copies, v);
    NextWalked(w, w1, w2, values, v, None);
  }

  lemma CallDone(w: World, w': World, values: seq<Value>, copies: seq<Value>)
    requires CopiedAll(w, w', values, copies) && SameInProgress(w.funcs, w'.funcs)
    requires WalkedAll(w.src, Known(w), [], w'.order, values, None)
    ensures Inv(w', w) && Grows(w, w') && |copies| == |values|
    ensures forall i | 0 <= i < |copies| :: ValueIn(w'.dst, copies[i])
    ensures CallOutcome(w, w', values, None, [])
  {
    hide Inv, Grows, FromValues, Copied, WalkedAll, Stuck, TableCopied, FunctionCopied;
    NeverStuck(w, w');
    forall i | 0 <= i < |copies| ensures ValueIn(w'.dst, copies[i]) {
      CopiedIn(w', w, values[i], copies[i]);
    }
  }

  lemma NeverStuck(w: World, w': World)
    requires Inv(w', w) && w.funcs == map[] && SameInProgress(w.funcs, w'.funcs)
    ensures !Stuck(w'.src, Known(w), w'.met) && w'.src == w.src
  {
  }

  /** What both states are left with. */
  lemma WorldValid(w: World, w': World)
    requires Inv(w', w) && Grows(w, w')
    ensures Closed(w'.src) && Closed(w'.dst) && Allocated(w'.dst) && Extends(w.dst, w'.dst)
    ensures Bijection(w'.srcReg, w'.src.tables.Keys, w'.lastId) && Bijection(w'.dstReg, w'.dst.tables.Keys, w'.lastId)
    ensures GrowsRegistry(w.srcReg, w'.srcReg) && GrowsRegistry(w.dstReg, w'.dstReg) && w.lastId <= w'.lastId
    ensures forall v :: ValueIn(w.dst, v) ==> ValueIn(w'.dst, v)
  {
  }
}
