/**
 Runs of many copies between many states (iw_lanes/tools.cpp): whatever is copied where, with or
 without errors, and whatever the scripts do to their heaps in between, the metatable registries of
 all states stay two-way bijections and never forget or change a pair.
 */
module CopyRuns {
  import opened Basics
  import opened LuaGraph
  import opened CopyWorld
  import opened InterCopy
  import CopyTheorems

  /** A copy of the top 'n' values of one state to another; or a script changes the heap of a state. */
  datatype Job = Copy(from: nat, to: nat, n: nat) | Script(state: nat, graph: Graph, stack: seq<Value>)

  /** A script may change everything but the tables that its registry holds. */
  predicate ScriptAllowed(reg: Registry, graph: Graph, stack: seq<Value>) {
    && Closed(graph) && Allocated(graph)
    && (forall t | t in reg.idOf :: t in graph.tables)
    && (forall i | 0 <= i < |stack| :: ValueIn(graph, stack[i]))
  }

  ghost predicate AllValid(states: seq<LuaState>, lastId: nat)
    reads states
  {
    forall i | 0 <= i < |states| :: states[i].Valid(lastId)
  }

  ghost function Registries(states: seq<LuaState>): (r: seq<Registry>)
    reads states
    ensures |r| == |states| && forall i | 0 <= i < |states| :: r[i] == states[i].reg
  {
    seq(|states|, i requires 0 <= i < |states| reads states => states[i].reg)
  }

  ghost predicate AllGrow(regs: seq<Registry>, regs': seq<Registry>) {
    |regs| == |regs'| && forall i | 0 <= i < |regs| :: GrowsRegistry(regs[i], regs'[i])
  }

  /** A registry that is a bijection stays one while other states draw ids. */
  lemma LaterIds(reg: Registry, heap: set<Ref>, lastId: nat, lastId': nat)
    requires Bijection(reg, heap, lastId) && lastId <= lastId'
    ensures Bijection(reg, heap, lastId')
  {
  }

  method RunJob(states: seq<LuaState>, ids: MtIdCounter, job: Job)
    requires Distinct(states) && AllValid(states, ids.lastId)
    modifies states, ids
    ensures AllValid(states, ids.lastId) && old(ids.lastId) <= ids.lastId
    ensures AllGrow(old(Registries(states)), Registries(states))
  {
    hide Closed, Allocated, Bijection;
    match job {
      case Copy(from, to, n) =>
        if from < |states| && to < |states| && from != to {
          var error, _, _, _ := InterCopy.InterCopy(states[from], states[to], ids, n);
          forall i | 0 <= i < |states| ensures states[i].Valid(ids.lastId) {
            if i != from && i != to {
              LaterIds(states[i].reg, states[i].graph.tables.Keys, old(ids.lastId), ids.lastId);
            }
          }
        }
      case Script(state, graph, stack) =>
        if state < |states| && ScriptAllowed(states[state].reg, graph, stack) {
          SameIds(states[state].reg, states[state].graph.tables.Keys, graph.tables.Keys, ids.lastId);
          states[state].graph, states[state].stack := graph, stack;
        }
    }
  }

  lemma SameIds(reg: Registry, heap: set<Ref>, heap': set<Ref>, lastId: nat)
    requires Bijection(reg, heap, lastId) && forall t | t in reg.idOf :: t in heap'
    ensures Bijection(reg, heap', lastId)
  {
  }

  method Run(states: seq<LuaState>, ids: MtIdCounter, jobs: seq<Job>)
    requires Distinct(states) && AllValid(states, ids.lastId)
    modifies states, ids
    ensures AllValid(states, ids.lastId)
    ensures AllGrow(old(Registries(states)), Registries(states))
  {
    hide AllValid;
    ghost var regs := Registries(states);
    for k := 0 to |jobs|
      invariant AllValid(states, ids.lastId) && AllGrow(regs, Registries(states))
    {
      ghost var regs1 := Registries(states);
      RunJob(states, ids, jobs[k]);
      GrowsOn(regs, regs1, Registries(states));
    }
  }

  lemma GrowsOn(regs: seq<Registry>, regs1: seq<Registry>, regs2: seq<Registry>)
    requires AllGrow(regs, regs1) && AllGrow(regs1, regs2)
    ensures AllGrow(regs, regs2)
  {
  }

  function Top(stack: seq<Value>): Value
    requires stack != []
  {
    stack[|stack| - 1]
  }

  /** A table is copied from one state to another, any jobs follow, and if its copy is then on top, with the
      metatable that it got, it is copied back: what comes home has the metatable of the table. */
  method RoundTrip(states: seq<LuaState>, ids: MtIdCounter, a: nat, b: nat, jobs: seq<Job>)
    returns (home: Option<Ref>)
    requires Distinct(states) && AllValid(states, ids.lastId) && a < |states| && b < |states| && a != b
    requires states[a].stack != [] && Top(states[a].stack).TableRef?
    requires Top(states[a].stack).t in states[a].graph.tables
    modifies states, ids
    ensures home.Some? ==>
              && home.value in states[a].graph.tables
              && states[a].graph.tables[home.value].meta == old(states[a].graph.tables[Top(states[a].stack).t].meta)
  {
    hide Closed, Allocated, Bijection, GrowsRegistry, CallOutcome, CopiedAll, Extends;
    var original := Top(states[a].stack);
    assert states[a].stack[|states[a].stack| - 1..] == [original];
    var error, w, w', _ := InterCopy.InterCopy(states[a], states[b], ids, 1);
    if error.Some? {
      return None;
    }
    forall i | 0 <= i < |states| ensures states[i].Valid(ids.lastId) {
      if i != a && i != b {
        LaterIds(states[i].reg, states[i].graph.tables.Keys, old(ids.lastId), ids.lastId);
      }
    }
    var copy := Top(states[b].stack);
    assert states[b].stack[|old(states[b].stack)|..] == [copy];
    CopyIsTable(w, w', original, copy);
    var meta := states[b].graph.tables[copy.t].meta;
    ghost var regs := Registries(states);
    Run(states, ids, jobs);
    assert GrowsRegistry(regs[a], states[a].reg) && GrowsRegistry(regs[b], states[b].reg);
    var back := states[b];
    if back.stack == [] || Top(back.stack) != copy || copy.t !in back.graph.tables
       || back.graph.tables[copy.t].meta != meta
    {
      return None;
    }
    assert back.stack[|back.stack| - 1..] == [copy];
    ghost var below := states[a].stack;
    var error2, v, v', _ := InterCopy.InterCopy(states[b], states[a], ids, 1);
    if error2.Some? {
      return None;
    }
    var again := Top(states[a].stack);
    assert states[a].stack[|below|..] == [again];
    CopyTheorems.MetatableComesHome(w, w', [original], [copy], 0, v, v', [copy], [again], 0);
    home := Some(again.t);
  }

  lemma CopyIsTable(w: World, w': World, v: Value, v': Value)
    requires CopiedAll(w, w', [v], [v']) && v.TableRef?
    ensures v'.TableRef? && v'.t in w'.dst.tables
  {
    hide CopiedAll, EntriesCopied, FromValues;
    CopyTheorems.CopyIsImage(w, w', [v], [v']);
    assert Copied(w', [v][0], [v'][0]) && CopyTheorems.TableImage(w, w', v.t);
  }
}
