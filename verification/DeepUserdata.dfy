/**
 Deep userdata of iw_lanes/tools.cpp: data shared by proxies in many Lua states, with a count under
 'deep_lock'. Threads interleave at the steps the source leaves open; a proxy that a thread is
 copying lies on that thread's stack and is not collected meanwhile.
 */
module DeepUserdata {

  type Prelude = nat
  type Proxy = nat
  type Thread = nat

  /** Where a thread stands inside luaG_push_proxy or deep_userdata_gc; other threads are idle. */
  datatype Pc =
    | BeforeIncrement(prelude: Prelude, source: Source)
    | Incremented(prelude: Prelude)
    | BeforeDecrement(prelude: Prelude)
    | BeforeDelete(prelude: Prelude)
    | BeforeFree(prelude: Prelude)

  /** A push comes from luaG_deep_userdata or from the copy of a proxy. */
  datatype Source = Fresh | CopyOf(proxy: Proxy)

  datatype State = State(
    refcount: map<Prelude, int>,
    proxies: map<Proxy, Prelude>,
    threads: map<Thread, Pc>,
    leaked: map<nat, Prelude>,
    deletes: map<Prelude, nat>,
    freed: set<Prelude>)

  datatype Action =
    | Create(t: Thread, p: Prelude)
    | Copy(t: Thread, x: Proxy)
    | Increment(t: Thread)
    | MakeProxy(t: Thread, x: Proxy)
    | BadMetatable(t: Thread, n: nat)
    | Collect(t: Thread, x: Proxy)
    | Decrement(t: Thread)
    | Delete(t: Thread)
    | Free(t: Thread)

  const INIT := State(map[], map[], map[], map[], map[], {})

  predicate Pinned(s: State, x: Proxy) {
    exists t | t in s.threads :: s.threads[t].BeforeIncrement? && s.threads[t].source == CopyOf(x)
  }

  predicate Enabled(s: State, a: Action) {
    match a
    case Create(t, p) => t !in s.threads && p !in s.refcount && p !in s.freed
    case Copy(t, x) => t !in s.threads && x in s.proxies
    case Increment(t) => t in s.threads && s.threads[t].BeforeIncrement?
    case MakeProxy(t, x) => t in s.threads && s.threads[t].Incremented? && x !in s.proxies
    case BadMetatable(t, n) => t in s.threads && s.threads[t].Incremented? && n !in s.leaked
    case Collect(t, x) => t !in s.threads && x in s.proxies && !Pinned(s, x)
    case Decrement(t) => t in s.threads && s.threads[t].BeforeDecrement?
    case Delete(t) => t in s.threads && s.threads[t].BeforeDelete?
    case Free(t) => t in s.threads && s.threads[t].BeforeFree?
  }

  function Count(m: map<Prelude, int>, p: Prelude): int {
    if p in m then m[p] else 0
  }

  function Deletes(s: State, p: Prelude): nat {
    if p in s.deletes then s.deletes[p] else 0
  }

  /** One step; an action that is not enabled changes nothing. */
  function Step(s: State, a: Action): State {
    if !Enabled(s, a) then s
    else
      match a
      // malloc with refcount 0, idfunc("new")
      case Create(t, p) =>
        s.(refcount := s.refcount[p := 0], threads := s.threads[t := BeforeIncrement(p, Fresh)])
      // p = *proxy
      case Copy(t, x) =>
        s.(threads := s.threads[t := BeforeIncrement(s.proxies[x], CopyOf(x))])
      case Increment(t) =>
        var p := s.threads[t].prelude;
        s.(refcount := s.refcount[p := Count(s.refcount, p) + 1], threads := s.threads[t := Incremented(p)])
      // lua_newuserdata, *proxy = prelude, lua_setmetatable
      case MakeProxy(t, x) =>
        s.(proxies := s.proxies[x := s.threads[t].prelude], threads := s.threads - {t})
      // idfunc("metatable") returned no table: the proxy stays without '__gc'
      case BadMetatable(t, n) =>
        s.(leaked := s.leaked[n := s.threads[t].prelude], threads := s.threads - {t})
      // *proxy = 0
      case Collect(t, x) =>
        s.(proxies := s.proxies - {x}, threads := s.threads[t := BeforeDecrement(s.proxies[x])])
      case Decrement(t) =>
        var p := s.threads[t].prelude;
        var v := Count(s.refcount, p) - 1;
        s.(refcount := s.refcount[p := v],
           threads := if v == 0 then s.threads[t := BeforeDelete(p)] else s.threads - {t})
      // idfunc("delete")
      case Delete(t) =>
        var p := s.threads[t].prelude;
        s.(deletes := s.deletes[p := Deletes(s, p) + 1], threads := s.threads[t := BeforeFree(p)])
      // DEEP_FREE
      case Free(t) =>
        var p := s.threads[t].prelude;
        s.(freed := s.freed + {p}, refcount := s.refcount - {p}, threads := s.threads - {t})
  }

  function Run(s: State, actions: seq<Action>): State
    decreases |actions|
  {
    if actions == [] then s else Run(Step(s, actions[0]), actions[1..])
  }

  // ----- who refers to a prelude -----

  datatype Holder = ByProxy(x: Proxy) | ByPush(t: Thread) | ByCollect(t: Thread) | ByLeak(n: nat)

  predicate Holds(s: State, h: Holder, p: Prelude) {
    match h
    case ByProxy(x) => x in s.proxies && s.proxies[x] == p
    case ByPush(t) => t in s.threads && s.threads[t] == Incremented(p)
    case ByCollect(t) => t in s.threads && s.threads[t] == BeforeDecrement(p)
    case ByLeak(n) => n in s.leaked && s.leaked[n] == p
  }

  function Candidates(s: State): set<Holder> {
    (set x | x in s.proxies :: ByProxy(x)) + (set t | t in s.threads :: ByPush(t))
    + (set t | t in s.threads :: ByCollect(t)) + (set n | n in s.leaked :: ByLeak(n))
  }

  /** Live proxies, pushes in flight, collections in flight, and proxies left without '__gc'. */
  function Holders(s: State, p: Prelude): (hs: set<Holder>)
    ensures forall h :: h in hs <==> Holds(s, h, p)
  {
    set h | h in Candidates(s) && Holds(s, h, p)
  }

  /** A thread that has a prelude to itself: it is creating it, or ending it. */
  predicate Exclusive(pc: Pc) {
    (pc.BeforeIncrement? && pc.source == Fresh) || pc.BeforeDelete? || pc.BeforeFree?
  }

  ghost predicate Owned(s: State, p: Prelude) {
    exists t :: t in s.threads && Exclusive(s.threads[t]) && s.threads[t].prelude == p
  }

  /** Whoever refers to a prelude finds it allocated; the proxy being copied is still there. */
  ghost predicate Allocated(s: State) {
    && s.refcount.Keys !! s.freed
    && (forall h, p | Holds(s, h, p) :: p in s.refcount)
    && (forall t | t in s.threads :: s.threads[t].prelude in s.refcount)
    && (forall t, x | t in s.threads && s.threads[t].BeforeIncrement? && s.threads[t].source == CopyOf(x) ::
          Holds(s, ByProxy(x), s.threads[t].prelude))
  }

  ghost predicate Alone(s: State) {
    forall t | t in s.threads && Exclusive(s.threads[t]) ::
      && (forall u | u in s.threads && u != t :: s.threads[u].prelude != s.threads[t].prelude)
      && (forall h :: !Holds(s, h, s.threads[t].prelude))
  }

  ghost predicate Counted(s: State) {
    forall p | p in s.refcount :: s.refcount[p] == |Holders(s, p)|
  }

  /** A prelude without holders is being created or ended. */
  ghost predicate NoneForgotten(s: State) {
    forall p | p in s.refcount && s.refcount[p] == 0 :: Owned(s, p)
  }

  ghost predicate DeletedOnce(s: State) {
    && (forall t | t in s.threads :: Deletes(s, s.threads[t].prelude) == if s.threads[t].BeforeFree? then 1 else 0)
    && (forall h, p | Holds(s, h, p) :: Deletes(s, p) == 0)
    && (forall p | p !in s.refcount :: Deletes(s, p) == if p in s.freed then 1 else 0)
  }

  ghost predicate Inv(s: State) {
    Allocated(s) && Alone(s) && Counted(s) && NoneForgotten(s) && DeletedOnce(s)
  }

  lemma CountHolders(s: State, s': State, p: Prelude, add: set<Holder>, del: set<Holder>)
    requires forall h :: Holds(s', h, p) <==> (Holds(s, h, p) && h !in del) || h in add
    requires add !! Holders(s, p) && del <= Holders(s, p) && add !! del
    ensures |Holders(s', p)| == |Holders(s, p)| + |add| - |del|
  {
    assert Holders(s', p) == Holders(s, p) - del + add;
  }

  /** The count of 'p' follows its holders, the others keep theirs. */
  ghost predicate CountsFollow(s: State, s': State, p: Prelude, add: set<Holder>, del: set<Holder>) {
    && (forall h, q | q != p :: Holds(s', h, q) <==> Holds(s, h, q))
    && (forall h :: Holds(s', h, p) <==> (Holds(s, h, p) && h !in del) || h in add)
    && (forall h | h in add :: !Holds(s, h, p) && h !in del)
    && (forall h | h in del :: Holds(s, h, p))
    && (forall q | q in s'.refcount :: q in s.refcount &&
          s'.refcount[q] == s.refcount[q] + if q == p then |add| - |del| else 0)
  }

  lemma CountsKept(s: State, s': State, p: Prelude, add: set<Holder>, del: set<Holder>)
    requires Counted(s) && CountsFollow(s, s', p, add, del)
    ensures Counted(s')
  {
    forall q | q in s'.refcount ensures s'.refcount[q] == |Holders(s', q)| {
      if q == p {
        CountHolders(s, s', p, add, del);
      } else {
        CountHolders(s, s', q, {}, {});
      }
    }
  }

  lemma PushCounted(s: State, a: Action)
    requires Allocated(s) && Counted(s) && Enabled(s, a)
    requires a.Copy? || a.Increment?
    ensures Counted(Step(s, a))
  {
    hide Counted, Holders;
    var s' := Step(s, a);
    match a {
      case Copy(t, x) => CountsKept(s, s', s.proxies[x], {}, {});
      case Increment(t) => CountsKept(s, s', s.threads[t].prelude, {ByPush(t)}, {});
    }
  }

  lemma PushedCounted(s: State, a: Action)
    requires Allocated(s) && Counted(s) && Enabled(s, a)
    requires a.MakeProxy? || a.BadMetatable?
    ensures Counted(Step(s, a))
  {
    hide Counted, Holders;
    var s' := Step(s, a);
    match a {
      case MakeProxy(t, x) => CountsKept(s, s', s.threads[t].prelude, {ByProxy(x)}, {ByPush(t)});
      case BadMetatable(t, n) => CountsKept(s, s', s.threads[t].prelude, {ByLeak(n)}, {ByPush(t)});
    }
  }

  lemma CollectCounted(s: State, a: Action)
    requires Allocated(s) && Counted(s) && Enabled(s, a)
    requires a.Collect? || a.Decrement?
    ensures Counted(Step(s, a))
  {
    hide Counted, Holders;
    var s' := Step(s, a);
    match a {
      case Collect(t, x) => CountsKept(s, s', s.proxies[x], {ByCollect(t)}, {ByProxy(x)});
      case Decrement(t) => CountsKept(s, s', s.threads[t].prelude, {}, {ByCollect(t)});
    }
  }

  lemma EndCounted(s: State, a: Action)
    requires Allocated(s) && Counted(s) && Enabled(s, a)
    requires a.Delete? || a.Free?
    ensures Counted(Step(s, a))
  {
    hide Counted, Holders;
    CountsKept(s, Step(s, a), s.threads[a.t].prelude, {}, {});
  }

  lemma CreateCounted(s: State, t: Thread, p: Prelude)
    requires Allocated(s) && Counted(s) && Enabled(s, Create(t, p))
    ensures Counted(Step(s, Create(t, p)))
  {
    var s' := Step(s, Create(t, p));
    forall q | q in s'.refcount ensures s'.refcount[q] == |Holders(s', q)| {
      CountHolders(s, s', q, {}, {});
      assert q == p ==> Holders(s, q) == {};
    }
  }

  lemma NoHolders(s: State, p: Prelude)
    requires Counted(s) && p in s.refcount
    ensures s.refcount[p] == 0 <==> forall h :: !Holds(s, h, p)
  {
  }

  /** What an enabled action finds: the proxy it reads, or the reference it holds, and a count of 0 or more. */
  lemma ActionHolds(s: State, a: Action)
    requires Enabled(s, a) && Counted(s)
    ensures (a.Copy? || a.Collect?) ==> Holds(s, ByProxy(a.x), s.proxies[a.x])
    ensures a.Decrement? ==> Holds(s, ByCollect(a.t), s.threads[a.t].prelude)
    ensures a.MakeProxy? || a.BadMetatable? ==> Holds(s, ByPush(a.t), s.threads[a.t].prelude)
    ensures a.Collect? ==>
              forall t | t in s.threads && s.threads[t].BeforeIncrement? :: s.threads[t].source != CopyOf(a.x)
    ensures forall p | p in s.refcount :: s.refcount[p] >= 0
  {
  }

  /** The prelude that an enabled action is about. */
  function Target(s: State, a: Action): Prelude
    requires Enabled(s, a)
  {
    match a
    case Create(_, p) => p
    case Copy(_, x) => s.proxies[x]
    case Collect(_, x) => s.proxies[x]
    case _ => s.threads[a.t].prelude
  }

  lemma OthersUntouched(s: State, a: Action)
    requires Enabled(s, a)
    ensures forall h, p | Holds(Step(s, a), h, p) :: Holds(s, h, p) || p == Target(s, a)
    ensures a.Free? || a.Delete? || a.Create? || a.Copy? ==> forall h, p | Holds(Step(s, a), h, p) :: Holds(s, h, p)
    ensures forall t | t in Step(s, a).threads && t != a.t :: t in s.threads && Step(s, a).threads[t] == s.threads[t]
    ensures a.t in Step(s, a).threads ==> Step(s, a).threads[a.t].prelude == Target(s, a)
  {
  }

  lemma StepAllocated(s: State, a: Action)
    requires Inv(s) && Enabled(s, a)
    ensures Allocated(Step(s, a))
  {
    hide Counted, NoneForgotten, DeletedOnce, Holders;
    ActionHolds(s, a);
    OthersUntouched(s, a);
  }

  /** A thread without a prelude of its own has, or copies from, a holder of it. */
  lemma UserHolds(s: State, s': State, u: Thread)
    requires Allocated(s) && u in s.threads && !Exclusive(s.threads[u])
    requires s'.proxies == s.proxies && u in s'.threads && s'.threads[u] == s.threads[u]
    ensures exists h :: Holds(s', h, s.threads[u].prelude)
  {
    match s.threads[u] {
      case BeforeIncrement(p, CopyOf(x)) =>
        assert Holds(s, ByProxy(x), p);
        assert Holds(s', ByProxy(x), p);
      case Incremented(p) => assert Holds(s', ByPush(u), p);
      case BeforeDecrement(p) => assert Holds(s', ByCollect(u), p);
    }
  }

  lemma StepAlone(s: State, a: Action)
    requires Inv(s) && Enabled(s, a) && Counted(Step(s, a))
    ensures Alone(Step(s, a))
  {
    hide Counted, NoneForgotten, DeletedOnce, Holders;
    ActionHolds(s, a);
    OthersUntouched(s, a);
    if a.Decrement? {
      var s' := Step(s, a);
      NoHolders(s', s.threads[a.t].prelude);
      forall u | u in s.threads && u != a.t && !Exclusive(s.threads[u])
        ensures exists h :: Holds(s', h, s.threads[u].prelude)
      {
        UserHolds(s, s', u);
      }
    }
  }

  lemma EndDeletedOnce(s: State, a: Action)
    requires Inv(s) && Enabled(s, a) && (a.Delete? || a.Free?)
    ensures DeletedOnce(Step(s, a))
  {
    hide Counted, NoneForgotten, Holders;
    OthersUntouched(s, a);
  }

  lemma StepDeletedOnce(s: State, a: Action)
    requires Inv(s) && Enabled(s, a) && !a.Delete? && !a.Free?
    ensures DeletedOnce(Step(s, a))
  {
    hide Counted, NoneForgotten, Holders, Alone;
    ActionHolds(s, a);
    OthersUntouched(s, a);
  }

  lemma StepNoneForgotten(s: State, a: Action)
    requires Inv(s) && Enabled(s, a)
    ensures NoneForgotten(Step(s, a))
  {
    hide Counted, DeletedOnce, Holders;
    ActionHolds(s, a);
    var s' := Step(s, a);
    forall q | q in s'.refcount && s'.refcount[q] == 0 ensures Owned(s', q) {
      if a.t in s'.threads && Exclusive(s'.threads[a.t]) && s'.threads[a.t].prelude == q {
      } else {
        var u :| u in s.threads && Exclusive(s.threads[u]) && s.threads[u].prelude == q;
        assert u in s'.threads && Exclusive(s'.threads[u]);
      }
    }
  }

  lemma StepKeeps(s: State, a: Action)
    requires Inv(s)
    ensures Inv(Step(s, a))
  {
    hide Allocated, Alone, Counted, NoneForgotten, DeletedOnce;
    if Enabled(s, a) {
      match a {
        case Create(t, p) => CreateCounted(s, t, p);
        case Collect(_, _) => CollectCounted(s, a);
        case Decrement(_) => CollectCounted(s, a);
        case Delete(_) => EndCounted(s, a);
        case Free(_) => EndCounted(s, a);
        case MakeProxy(_, _) => PushedCounted(s, a);
        case BadMetatable(_, _) => PushedCounted(s, a);
        case _ => PushCounted(s, a);
      }
      StepAllocated(s, a);
      StepAlone(s, a);
      if a.Delete? || a.Free? {
        EndDeletedOnce(s, a);
      } else {
        StepDeletedOnce(s, a);
      }
      StepNoneForgotten(s, a);
    }
  }

  lemma {:induction false} RunKeeps(s: State, actions: seq<Action>)
    requires Inv(s)
    ensures Inv(Run(s, actions))
    decreases |actions|
  {
    hide Inv, Step;
    if actions != [] {
      StepKeeps(s, actions[0]);
      RunKeeps(Step(s, actions[0]), actions[1..]);
    }
  }

  // ----- over every interleaving -----

  /** The count of a prelude is the number of its live proxies, of pushes and collections in flight, and
      of proxies that a bad idfunc left without '__gc'. */
  lemma CountIsHolders(actions: seq<Action>, p: Prelude)
    requires p in Run(INIT, actions).refcount
    ensures Run(INIT, actions).refcount[p] == |Holders(Run(INIT, actions), p)|
  {
    hide Run;
    RunKeeps(INIT, actions);
  }

  /** A live proxy, and a thread in the middle of a push, have their data: neither deleted nor freed. */
  lemma NeverDangling(actions: seq<Action>, h: Holder, p: Prelude)
    requires Holds(Run(INIT, actions), h, p)
    ensures var s := Run(INIT, actions);
            p in s.refcount && s.refcount[p] >= 1 && p !in s.freed && Deletes(s, p) == 0
  {
    hide Run;
    RunKeeps(INIT, actions);
    assert h in Holders(Run(INIT, actions), p);
  }

  /** "delete" runs at most once, and only when nobody refers to the data; then the prelude is freed. */
  lemma DeletedAtMostOnce(actions: seq<Action>, p: Prelude)
    ensures var s := Run(INIT, actions);
            && Deletes(s, p) <= 1
            && (p in s.freed ==> Deletes(s, p) == 1)
            && (forall t | t in s.threads && s.threads[t] == BeforeDelete(p) ::
                  Deletes(s, p) == 0 && forall h :: !Holds(s, h, p))
  {
    hide Run;
    RunKeeps(INIT, actions);
    var s := Run(INIT, actions);
    if p in s.refcount {
      if s.refcount[p] == 0 {
        var t :| t in s.threads && Exclusive(s.threads[t]) && s.threads[t].prelude == p;
        assert Deletes(s, s.threads[t].prelude) <= 1;
      } else {
        NoHolders(s, p);
      }
    }
  }

  function LiveProxies(s: State, p: Prelude): set<Proxy> {
    set x | x in s.proxies && s.proxies[x] == p
  }

  function AsHolders(xs: set<Proxy>): set<Holder> {
    set x | x in xs :: ByProxy(x)
  }

  /** Nothing is forgotten: when all threads are idle and no idfunc has misbehaved, a prelude that is
      still allocated has as many live proxies as its count says, and at least one. */
  lemma QuietCount(actions: seq<Action>, p: Prelude)
    requires Run(INIT, actions).threads == map[] && Run(INIT, actions).leaked == map[]
    requires p in Run(INIT, actions).refcount
    ensures var s := Run(INIT, actions);
            s.refcount[p] == |LiveProxies(s, p)| && s.refcount[p] >= 1
  {
    hide Run;
    RunKeeps(INIT, actions);
    var s := Run(INIT, actions);
    ProxiesAreHolders(s, p);
    assert s.refcount[p] != 0 by {
      hide Counted, Allocated, DeletedOnce;
      assert !Owned(s, p);
    }
  }

  lemma ProxiesAreHolders(s: State, p: Prelude)
    requires s.threads == map[] && s.leaked == map[]
    ensures |Holders(s, p)| == |LiveProxies(s, p)|
  {
    var xs := LiveProxies(s, p);
    assert Holders(s, p) == AsHolders(xs) by {
      hide Candidates;
      forall h | h in Holders(s, p) ensures h.ByProxy? && h.x in xs {
        assert Holds(s, h, p);
      }
      forall x | x in xs ensures ByProxy(x) in Holders(s, p) {
        assert Holds(s, ByProxy(x), p);
      }
    }
    MapSize(xs);
  }

  lemma {:induction false} MapSize(xs: set<Proxy>)
    ensures |AsHolders(xs)| == |xs|
    decreases |xs|
  {
    if xs != {} {
      var y :| y in xs;
      MapSize(xs - {y});
      assert AsHolders(xs) == AsHolders(xs - {y}) + {ByProxy(y)};
    }
  }

  lemma LeakStep(s: State, n: nat, a: Action)
    requires n in s.leaked
    ensures n in Step(s, a).leaked && Step(s, a).leaked[n] == s.leaked[n]
  {
  }

  lemma HeldIsWhole(s: State, h: Holder, p: Prelude)
    requires Inv(s) && Holds(s, h, p)
    ensures p in s.refcount && p !in s.freed && Deletes(s, p) == 0
  {
  }

  /** After a bad "metatable" the count never falls to 0 again: the data is kept for ever. */
  lemma {:induction false} LeakIsKept(s: State, n: nat, actions: seq<Action>)
    requires Inv(s) && n in s.leaked
    ensures var s' := Run(s, actions);
            n in s'.leaked && s'.leaked[n] == s.leaked[n] && s.leaked[n] !in s'.freed && Deletes(s', s.leaked[n]) == 0
    decreases |actions|
  {
    hide Inv, Step, Deletes;
    if actions == [] {
      HeldIsWhole(s, ByLeak(n), s.leaked[n]);
    } else {
      StepKeeps(s, actions[0]);
      LeakStep(s, n, actions[0]);
      LeakIsKept(Step(s, actions[0]), n, actions[1..]);
    }
  }
}
