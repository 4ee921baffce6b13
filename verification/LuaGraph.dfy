/**
 The heap of one Lua state, as the inter-state copy of iw_lanes/tools.cpp sees it: a finite graph
 of tables, functions and userdata. References are the object identities that the source obtains
 from 'tostring'; taking them as numbers makes identity injective.
 */
module LuaGraph {
  import opened Basics

  type Ref = nat

  datatype Value =
    | Nil
    | Boolean(b: bool)
    | Number(n: real)
    | Str(s: string)
    | LightUserdata(address: nat)
    | UserdataRef(u: Ref)
    | FunctionRef(f: Ref)
    | TableRef(t: Ref)
    | ThreadRef(th: Ref)

  datatype Table = Table(entries: map<Value, Value>, meta: Option<Ref>)

  /** A Lua function is its dumped prototype, a C function its address; both carry upvalues. */
  datatype Code = LuaCode(proto: nat) | CCode(cfunc: nat)

  datatype Function = Function(code: Code, upvalues: seq<Value>)

  /** A deep proxy shares its prelude between states; any other userdata is private to one. */
  datatype Userdata = DeepProxy(idfunc: nat, prelude: nat) | FullUserdata(address: nat)

  datatype Graph = Graph(
    tables: map<Ref, Table>,
    funcs: map<Ref, Function>,
    udata: map<Ref, Userdata>,
    nextRef: Ref)

  /** The types copied both as values and as table keys. */
  predicate Basic(v: Value) {
    v.Boolean? || v.Number? || v.Str? || v.LightUserdata?
  }

  predicate ValueIn(g: Graph, v: Value) {
    match v
    case UserdataRef(u) => u in g.udata
    case FunctionRef(f) => f in g.funcs
    case TableRef(t) => t in g.tables
    case _ => true
  }

  predicate TableIn(g: Graph, t: Table) {
    && (forall k | k in t.entries :: ValueIn(g, t.entries[k]))
    && (t.meta.Some? ==> t.meta.value in g.tables)
  }

  predicate FunctionIn(g: Graph, f: Function) {
    forall i | 0 <= i < |f.upvalues| :: ValueIn(g, f.upvalues[i])
  }

  /** Every reference leads to an object of the heap. */
  predicate Closed(g: Graph) {
    && (forall t | t in g.tables :: TableIn(g, g.tables[t]))
    && (forall f | f in g.funcs :: FunctionIn(g, g.funcs[f]))
  }

  /** Growing a closed heap, or rewriting objects of it, by objects that stay inside. */
  lemma ClosedGrows(g: Graph, g': Graph)
    requires Closed(g)
    requires g.tables.Keys <= g'.tables.Keys && g.funcs.Keys <= g'.funcs.Keys && g.udata.Keys <= g'.udata.Keys
    requires forall t | t in g'.tables :: (t in g.tables && g'.tables[t] == g.tables[t]) || TableIn(g', g'.tables[t])
    requires forall f | f in g'.funcs :: (f in g.funcs && g'.funcs[f] == g.funcs[f]) || FunctionIn(g', g'.funcs[f])
    ensures Closed(g')
  {
  }

  /** The allocator never hands out an identity twice. */
  predicate Allocated(g: Graph) {
    && (forall t | t in g.tables :: t < g.nextRef)
    && (forall f | f in g.funcs :: f < g.nextRef)
    && (forall u | u in g.udata :: u < g.nextRef)
  }

  ghost predicate Submap<K(!new), V>(a: map<K, V>, b: map<K, V>) {
    forall k | k in a :: k in b && b[k] == a[k]
  }

  // ----- paths of the source graph that a copy follows -----

  /** A Lua closure that has itself as upvalue is rewired without a visit. */
  predicate SelfUpvalue(g: Graph, f: Ref, i: nat)
    requires f in g.funcs && i < |g.funcs[f].upvalues|
  {
    g.funcs[f].code.LuaCode? && g.funcs[f].upvalues[i] == FunctionRef(f)
  }

  /** Copying 'x' visits 'y': a table leads to the values at its basic keys and to its metatable, a
      function to its upvalues. */
  ghost predicate Edge(g: Graph, x: Value, y: Value) {
    match x
    case TableRef(t) =>
      && t in g.tables
      && (|| (exists k :: k in g.tables[t].entries && Basic(k) && g.tables[t].entries[k] == y)
          || (g.tables[t].meta.Some? && y == TableRef(g.tables[t].meta.value)))
    case FunctionRef(f) =>
      && f in g.funcs
      && exists i :: 0 <= i < |g.funcs[f].upvalues| && !SelfUpvalue(g, f, i) && g.funcs[f].upvalues[i] == y
    case _ => false
  }

  /** What a copy follows when the target already knows the metatables 'known': not these. */
  ghost predicate CopyEdge(g: Graph, known: set<Ref>, x: Value, y: Value) {
    match x
    case TableRef(t) =>
      && t in g.tables
      && (|| (exists k :: k in g.tables[t].entries && Basic(k) && g.tables[t].entries[k] == y)
          || (g.tables[t].meta.Some? && y == TableRef(g.tables[t].meta.value) && g.tables[t].meta.value !in known))
    case _ => Edge(g, x, y)
  }

  ghost predicate IsPath(g: Graph, p: seq<Value>) {
    forall i | 0 <= i < |p| - 1 :: Edge(g, p[i], p[i + 1])
  }

  /** A path of one edge or more. */
  ghost predicate Joins(g: Graph, p: seq<Value>, x: Value, y: Value) {
    |p| >= 2 && p[0] == x && p[|p| - 1] == y && IsPath(g, p)
  }

  ghost predicate ReachesPlus(g: Graph, x: Value, y: Value) {
    exists p :: Joins(g, p, x, y)
  }

  ghost predicate Reaches(g: Graph, x: Value, y: Value) {
    x == y || ReachesPlus(g, x, y)
  }

  ghost predicate ReachedFrom(g: Graph, values: seq<Value>, y: Value) {
    exists i :: 0 <= i < |values| && Reaches(g, values[i], y)
  }

  lemma EdgeReaches(g: Graph, x: Value, y: Value)
    requires Edge(g, x, y)
    ensures ReachesPlus(g, x, y)
  {
    assert Joins(g, [x, y], x, y);
  }

  lemma ReachesPlusTrans(g: Graph, x: Value, y: Value, z: Value)
    requires ReachesPlus(g, x, y) && ReachesPlus(g, y, z)
    ensures ReachesPlus(g, x, z)
  {
    var p :| Joins(g, p, x, y);
    var q :| Joins(g, q, y, z);
    var r := p + q[1..];
    forall i | 0 <= i < |r| - 1 ensures Edge(g, r[i], r[i + 1]) {
      if i < |p| - 1 {
      } else {
        assert r[i] == q[i - (|p| - 1)] && r[i + 1] == q[i + 1 - (|p| - 1)];
      }
    }
    assert Joins(g, r, x, z);
  }

  lemma EdgeThenReaches(g: Graph, x: Value, y: Value, z: Value)
    requires Edge(g, x, y) && Reaches(g, y, z)
    ensures ReachesPlus(g, x, z)
  {
    EdgeReaches(g, x, y);
    if y != z {
      ReachesPlusTrans(g, x, y, z);
    }
  }

  // ----- paths through objects that have not been met -----

  /** The tables and functions that a copy had met when it came to some function. */
  datatype Met = Met(tables: set<Ref>, funcs: set<Ref>)

  function MetOf(order: seq<Value>): Met {
    Met(set v | v in order && v.TableRef? :: v.t, set v | v in order && v.FunctionRef? :: v.f)
  }

  predicate Unmet(met: Met, v: Value) {
    match v
    case TableRef(t) => t !in met.tables
    case FunctionRef(f) => f !in met.funcs
    case _ => true
  }

  ghost predicate FreshJoins(g: Graph, known: set<Ref>, met: Met, p: seq<Value>, x: Value, y: Value) {
    && |p| >= 2 && p[0] == x && p[|p| - 1] == y
    && (forall i | 0 <= i < |p| - 1 :: CopyEdge(g, known, p[i], p[i + 1]))
    && (forall i | 0 < i < |p| - 1 :: Unmet(met, p[i]))
  }

  /** A path from 'x' to 'y', of one edge or more, that a copy follows and that has nothing in between
      which had been met. */
  ghost predicate FreshPath(g: Graph, known: set<Ref>, met: Met, x: Value, y: Value) {
    exists p :: FreshJoins(g, known, met, p, x, y)
  }

  lemma CopyEdgeIsEdge(g: Graph, known: set<Ref>, x: Value, y: Value)
    requires CopyEdge(g, known, x, y)
    ensures Edge(g, x, y)
  {
  }

  lemma FreshPathReaches(g: Graph, known: set<Ref>, met: Met, x: Value, y: Value)
    requires FreshPath(g, known, met, x, y)
    ensures ReachesPlus(g, x, y)
  {
    var p :| FreshJoins(g, known, met, p, x, y);
    forall i | 0 <= i < |p| - 1 ensures Edge(g, p[i], p[i + 1]) {
      CopyEdgeIsEdge(g, known, p[i], p[i + 1]);
    }
    assert Joins(g, p, x, y);
  }

  lemma FreshEdge(g: Graph, known: set<Ref>, met: Met, x: Value, y: Value)
    requires CopyEdge(g, known, x, y)
    ensures FreshPath(g, known, met, x, y)
  {
    assert FreshJoins(g, known, met, [x, y], x, y);
  }

  lemma FreshPathThenEdge(g: Graph, known: set<Ref>, met: Met, x: Value, y: Value, z: Value)
    requires FreshPath(g, known, met, x, y) && Unmet(met, y) && CopyEdge(g, known, y, z)
    ensures FreshPath(g, known, met, x, z)
  {
    var p :| FreshJoins(g, known, met, p, x, y);
    var q := p + [z];
    assert forall i | 0 <= i < |p| :: q[i] == p[i];
    assert FreshJoins(g, known, met, q, x, z);
  }
}
