/**
 The nested profiler of iw_core/Profiler.cpp: an array indexed by stack depth gathers the overhead of
 the profilers below, so that it can be taken off the time of the one above. One thread; its clock
 readings, in ticks, are part of the input.
 */
module Profiler {

  const MAX_PROFILE_STACK_SIZE := 2048

  /** A profiled call: the readings of its constructor, the calls inside it, the readings of its destructor. */
  datatype Call = Call(name: string, start: int, ctorStart: int, ctorEnd: int, inner: seq<Call>,
                       dtorStart: int, dtorEnd: int, end: int)

  datatype Event =
    | Enter(name: string, start: int, ctorStart: int, ctorEnd: int)
    | Leave(dtorStart: int, dtorEnd: int, end: int)

  /** Hits, time and average under one name. */
  datatype ProfileData = ProfileData(hits: int, all: int, avg: int)

  datatype OpenCall = OpenCall(name: string, start: int, overhead: int)

  /** 'overhead' is gt_overhead, 'open' the profilers on the stack, outermost first. */
  datatype State = State(overhead: seq<int>, depth: nat, open: seq<OpenCall>, data: map<string, ProfileData>)

  /** Microseconds between two readings; the division truncates towards zero. */
  function Delta(start: int, end: int, ticksPerUs: nat): int
    requires ticksPerUs > 0
  {
    if start <= end then (end - start) / ticksPerUs else -((start - end) / ticksPerUs)
  }

  function Max0(x: int): int {
    if x < 0 then 0 else x
  }

  // ----- one event -----

  function Entry(data: map<string, ProfileData>, name: string): ProfileData {
    if name in data then data[name] else ProfileData(0, 0, 0)
  }

  function Record(data: map<string, ProfileData>, name: string, time: int): map<string, ProfileData> {
    var d := Entry(data, name);
    var hits, all := d.hits + 1, d.all + time;
    data[name := ProfileData(hits, all, if hits == 0 then 0 else all / hits)]
  }

  predicate StateOk(s: State) {
    |s.overhead| == MAX_PROFILE_STACK_SIZE && s.depth == |s.open| && s.depth < MAX_PROFILE_STACK_SIZE
    && forall name | name in s.data :: s.data[name].hits > 0 && s.data[name].all >= 0
  }

  function Step(s: State, e: Event, ticksPerUs: nat): (s': State)
    requires ticksPerUs > 0 && StateOk(s)
    requires e.Enter? ==> s.depth + 1 < MAX_PROFILE_STACK_SIZE
    requires e.Leave? ==> s.depth > 0
    ensures StateOk(s') && s'.depth == if e.Enter? then s.depth + 1 else s.depth - 1
  {
    match e
    case Enter(name, start, ctorStart, ctorEnd) =>
      State(s.overhead[s.depth + 1 := 0], s.depth + 1,
            s.open + [OpenCall(name, start, Delta(ctorStart, ctorEnd, ticksPerUs))], s.data)
    case Leave(dtorStart, dtorEnd, end) =>
      var d, x := s.depth - 1, s.open[s.depth - 1];
      var own := x.overhead + Delta(dtorStart, dtorEnd, ticksPerUs) + 5;
      State(s.overhead[d := s.overhead[d] + own + s.overhead[d + 1]], d, s.open[..d],
            Record(s.data, x.name, Max0(Delta(x.start, end, ticksPerUs) - own - s.overhead[d + 1])))
  }

  // ----- the call tree -----

  function Height(calls: seq<Call>): nat {
    if calls == [] then 0
    else
      var first, rest := 1 + Height(calls[0].inner), Height(calls[1..]);
      if first < rest then rest else first
  }

  function Events(calls: seq<Call>): seq<Event> {
    if calls == [] then []
    else
      var c := calls[0];
      [Enter(c.name, c.start, c.ctorStart, c.ctorEnd)] + Events(c.inner) + [Leave(c.dtorStart, c.dtorEnd, c.end)]
      + Events(calls[1..])
  }

  /** What the profiler of one call costs: its constructor, its destructor, and 5 us unmeasured. */
  function Self(c: Call, ticksPerUs: nat): int
    requires ticksPerUs > 0
  {
    Delta(c.ctorStart, c.ctorEnd, ticksPerUs) + Delta(c.dtorStart, c.dtorEnd, ticksPerUs) + 5
  }

  /** What all profilers of the calls and of those inside them cost. */
  function Cost(calls: seq<Call>, ticksPerUs: nat): int
    requires ticksPerUs > 0
  {
    if calls == [] then 0
    else Self(calls[0], ticksPerUs) + Cost(calls[0].inner, ticksPerUs) + Cost(calls[1..], ticksPerUs)
  }

  /** The time of a call itself: what it took, less the profilers in it and its own, but never negative. */
  function Net(c: Call, ticksPerUs: nat): int
    requires ticksPerUs > 0
  {
    Max0(Delta(c.start, c.end, ticksPerUs) - Self(c, ticksPerUs) - Cost(c.inner, ticksPerUs))
  }

  function HitsOf(calls: seq<Call>, name: string): nat {
    if calls == [] then 0
    else (if calls[0].name == name then 1 else 0) + HitsOf(calls[0].inner, name) + HitsOf(calls[1..], name)
  }

  function TimeOf(calls: seq<Call>, name: string, ticksPerUs: nat): int
    requires ticksPerUs > 0
  {
    if calls == [] then 0
    else (if calls[0].name == name then Net(calls[0], ticksPerUs) else 0)
         + TimeOf(calls[0].inner, name, ticksPerUs) + TimeOf(calls[1..], name, ticksPerUs)
  }

  // ----- runs of events -----

  /** Whether the array is never left and no more calls end than are open. */
  predicate Runs(s: State, events: seq<Event>, ticksPerUs: nat)
    requires ticksPerUs > 0
    decreases |events|
  {
    StateOk(s) &&
    (events != [] ==>
       && (if events[0].Enter? then s.depth + 1 < MAX_PROFILE_STACK_SIZE else s.depth > 0)
       && Runs(Step(s, events[0], ticksPerUs), events[1..], ticksPerUs))
  }

  function Run(s: State, events: seq<Event>, ticksPerUs: nat): State
    requires ticksPerUs > 0 && Runs(s, events, ticksPerUs)
    decreases |events|
  {
    if events == [] then s else Run(Step(s, events[0], ticksPerUs), events[1..], ticksPerUs)
  }

  lemma {:induction false} RunMore(s: State, a: seq<Event>, b: seq<Event>, t: nat)
    requires t > 0 && Runs(s, a, t) && Runs(Run(s, a, t), b, t)
    ensures Runs(s, a + b, t) && Run(s, a + b, t) == Run(Run(s, a, t), b, t)
    decreases |a|
  {
    if a == [] {
      assert a + b == b;
    } else {
      hide Step;
      assert (a + b)[1..] == a[1..] + b;
      RunMore(Step(s, a[0], t), a[1..], b, t);
    }
  }

  lemma RunOne(s: State, e: Event, t: nat)
    requires t > 0 && StateOk(s) && (e.Enter? ==> s.depth + 1 < MAX_PROFILE_STACK_SIZE) && (e.Leave? ==> s.depth > 0)
    ensures Runs(s, [e], t) && Run(s, [e], t) == Step(s, e, t)
  {
  }

  /** What running the calls should do to the array: at the present depth their cost is added up, the
      levels above are untouched. */
  ghost predicate CostAdded(s: State, calls: seq<Call>, s': State, t: nat)
    requires t > 0 && StateOk(s) && StateOk(s')
  {
    && s'.depth == s.depth && s'.open == s.open
    && (forall d | 0 <= d < s.depth :: s'.overhead[d] == s.overhead[d])
    && s'.overhead[s.depth] == s.overhead[s.depth] + Cost(calls, t)
  }

  /** And to the counters: every name gets its hits and its net time. */
  ghost predicate TimeAdded(data: map<string, ProfileData>, calls: seq<Call>, data': map<string, ProfileData>, t: nat)
    requires t > 0
  {
    forall name ::
      && Entry(data', name).hits == Entry(data, name).hits + HitsOf(calls, name)
      && Entry(data', name).all == Entry(data, name).all + TimeOf(calls, name, t)
  }

  lemma Together(calls: seq<Call>, t: nat)
    requires t > 0 && calls != []
    ensures Cost(calls, t) == Cost([calls[0]], t) + Cost(calls[1..], t)
    ensures forall name :: HitsOf(calls, name) == HitsOf([calls[0]], name) + HitsOf(calls[1..], name)
    ensures forall name :: TimeOf(calls, name, t) == TimeOf([calls[0]], name, t) + TimeOf(calls[1..], name, t)
    ensures Events(calls) == FirstEvents(calls[0]) + Events(calls[1..])
    ensures Height(calls[1..]) <= Height(calls) && Height(calls[0].inner) < Height(calls)
  {
  }

  function FirstEvents(c: Call): seq<Event> {
    [Enter(c.name, c.start, c.ctorStart, c.ctorEnd)] + Events(c.inner) + [Leave(c.dtorStart, c.dtorEnd, c.end)]
  }

  /** For every call tree, run at whatever depth and after whatever events, within the depth limit. */
  lemma {:induction false} RunCalls(s: State, calls: seq<Call>, t: nat)
    requires t > 0 && StateOk(s) && s.depth + Height(calls) < MAX_PROFILE_STACK_SIZE
    ensures Runs(s, Events(calls), t)
    ensures var s' := Run(s, Events(calls), t);
            StateOk(s') && CostAdded(s, calls, s', t) && TimeAdded(s.data, calls, s'.data, t)
    decreases calls
  {
    if calls != [] {
      Together(calls, t);
      hide Step, StateOk, Runs, Run, Height, Events, Cost, HitsOf, TimeOf, Entry, FirstEvents;
      var s1 := RunFirst(s, calls, t);
      RunCalls(s1, calls[1..], t);
      RunMore(s, FirstEvents(calls[0]), Events(calls[1..]), t);
    }
  }

  lemma {:induction false} RunFirst(s: State, calls: seq<Call>, t: nat) returns (s': State)
    requires t > 0 && StateOk(s) && calls != [] && s.depth + Height(calls) < MAX_PROFILE_STACK_SIZE
    ensures Runs(s, FirstEvents(calls[0]), t) && s' == Run(s, FirstEvents(calls[0]), t)
    ensures StateOk(s') && CostAdded(s, [calls[0]], s', t) && TimeAdded(s.data, [calls[0]], s'.data, t)
    decreases calls, 0
  {
    var c := calls[0];
    Together(calls, t);
    var s2 := AtExit(s, c, t);
    hide Step, StateOk, Runs, Run, Height, Events, Cost, HitsOf, TimeOf, Entry, CostAdded, TimeAdded;
    var leave := Leave(c.dtorStart, c.dtorEnd, c.end);
    RunOne(s2, leave, t);
    RunMore(s, [EnterOf(c)] + Events(c.inner), [leave], t);
    s' := Step(s2, leave, t);
    LeaveAdds(s, c, s2, t);
  }

  function EnterOf(c: Call): Event {
    Enter(c.name, c.start, c.ctorStart, c.ctorEnd)
  }

  /** Wherever a call stands in a run: when its destructor starts, the array holds one level down what
      all profilers inside it have cost, and its own record is on top. */
  lemma {:induction false} AtExit(s: State, c: Call, t: nat) returns (s2: State)
    requires t > 0 && StateOk(s) && s.depth + 1 + Height(c.inner) < MAX_PROFILE_STACK_SIZE
    ensures Runs(s, [EnterOf(c)] + Events(c.inner), t) && s2 == Run(s, [EnterOf(c)] + Events(c.inner), t)
    ensures StateOk(s2) && s2.depth == s.depth + 1
    ensures s2.overhead[s2.depth] == Cost(c.inner, t)
    ensures forall d | 0 <= d <= s.depth :: s2.overhead[d] == s.overhead[d]
    ensures s2.open == s.open + [OpenCall(c.name, c.start, Delta(c.ctorStart, c.ctorEnd, t))]
    ensures TimeAdded(s.data, c.inner, s2.data, t)
    decreases c
  {
    var enter := EnterOf(c);
    var s1 := Step(s, enter, t);
    RunOne(s, enter, t);
    RunCalls(s1, c.inner, t);
    hide Runs, Run, Height, Events, Cost, HitsOf, TimeOf, Entry;
    RunMore(s, [enter], Events(c.inner), t);
    s2 := Run(s1, Events(c.inner), t);
  }

  /** The destructor adds the cost of the call, with all inside it, to the level of its caller. */
  lemma LeaveAdds(s: State, c: Call, s2: State, t: nat)
    requires t > 0 && StateOk(s) && StateOk(s2) && s2.depth == s.depth + 1
    requires s2.overhead[s2.depth] == Cost(c.inner, t)
    requires forall d | 0 <= d <= s.depth :: s2.overhead[d] == s.overhead[d]
    requires s2.open == s.open + [OpenCall(c.name, c.start, Delta(c.ctorStart, c.ctorEnd, t))]
    requires TimeAdded(s.data, c.inner, s2.data, t)
    ensures var s' := Step(s2, Leave(c.dtorStart, c.dtorEnd, c.end), t);
            CostAdded(s, [c], s', t) && TimeAdded(s.data, [c], s'.data, t)
  {
    var leave := Leave(c.dtorStart, c.dtorEnd, c.end);
    var s' := Step(s2, leave, t);
    Alone(c, t);
    LeaveStep(s, c, s2, t);
    RecordAdds(s2.data, c.name, Net(c, t));
    hide Record, Delta, Net, Self, Step, StateOk, Cost, HitsOf, TimeOf, Entry;
    assert TimeAdded(s.data, [c], s'.data, t);
  }

  lemma Alone(c: Call, t: nat)
    requires t > 0
    ensures Cost([c], t) == Self(c, t) + Cost(c.inner, t)
    ensures forall n :: HitsOf([c], n) == (if c.name == n then 1 else 0) + HitsOf(c.inner, n)
    ensures forall n :: TimeOf([c], n, t) == (if c.name == n then Net(c, t) else 0) + TimeOf(c.inner, n, t)
  {
  }

  /** The destructor alone. */
  lemma LeaveStep(s: State, c: Call, s2: State, t: nat)
    requires t > 0 && StateOk(s) && StateOk(s2) && s2.depth == s.depth + 1
    requires s2.overhead[s2.depth] == Cost(c.inner, t)
    requires s2.open == s.open + [OpenCall(c.name, c.start, Delta(c.ctorStart, c.ctorEnd, t))]
    ensures var s' := Step(s2, Leave(c.dtorStart, c.dtorEnd, c.end), t);
            && s'.depth == s.depth && s'.open == s.open && s'.data == Record(s2.data, c.name, Net(c, t))
            && (forall d | 0 <= d < s.depth :: s'.overhead[d] == s2.overhead[d])
            && s'.overhead[s.depth] == s2.overhead[s.depth] + Self(c, t) + Cost(c.inner, t)
  {
  }

  lemma RecordAdds(data: map<string, ProfileData>, name: string, time: int)
    ensures forall n :: Entry(Record(data, name, time), n).hits == Entry(data, n).hits + if n == name then 1 else 0
    ensures forall n :: Entry(Record(data, name, time), n).all == Entry(data, n).all + if n == name then time else 0
  {
  }

  // ----- the profiler -----

  class FuncProfiler {
    const start: int
    const funcName: string
    var myOverhead: int

    constructor (name: string, start: int, overhead: int)
      ensures funcName == name && this.start == start && myOverhead == overhead
    {
      funcName, this.start, myOverhead := name, start, overhead;
    }
  }

  /** The profiler's data of one thread. */
  class ThreadProfile {
    const overhead: array<int>
    const ticksPerUs: nat
    var stackDepth: nat
    var data: map<string, ProfileData>
    ghost var open: seq<OpenCall>

    ghost function S(): State
      reads this, overhead
    {
      State(overhead[..], stackDepth, open, data)
    }

    ghost predicate Valid()
      reads this, overhead
    {
      ticksPerUs > 0 && StateOk(S())
    }

    /** InitProfile */
    constructor (ticksPerUs: nat)
      requires ticksPerUs > 0
      ensures Valid() && this.ticksPerUs == ticksPerUs && fresh(overhead)
      ensures stackDepth == 0 && data == map[] && overhead[0] == 0
    {
      overhead := new int[MAX_PROFILE_STACK_SIZE](_ => 0);
      this.ticksPerUs, stackDepth, data, open := ticksPerUs, 0, map[], [];
    }

    /** The constructor of FuncProfiler. */
    method Begin(name: string, start: int, ctorStart: int, ctorEnd: int) returns (p: FuncProfiler)
      requires Valid() && stackDepth + 1 < MAX_PROFILE_STACK_SIZE
      modifies this`stackDepth, this`open, overhead
      ensures Valid() && S() == Step(old(S()), Enter(name, start, ctorStart, ctorEnd), ticksPerUs)
      ensures fresh(p) && OpenCall(p.funcName, p.start, p.myOverhead) == open[stackDepth - 1]
    {
      overhead[stackDepth + 1] := 0;
      var own := Delta(ctorStart, ctorEnd, ticksPerUs);
      p := new FuncProfiler(name, start, own);
      stackDepth := stackDepth + 1;
      open := open + [OpenCall(name, start, own)];
    }

    /** The destructor of FuncProfiler. */
    method End(p: FuncProfiler, dtorStart: int, dtorEnd: int, end: int)
      requires Valid() && stackDepth > 0 && OpenCall(p.funcName, p.start, p.myOverhead) == open[stackDepth - 1]
      modifies this`stackDepth, this`open, this`data, overhead, p
      ensures Valid() && S() == Step(old(S()), Leave(dtorStart, dtorEnd, end), ticksPerUs)
    {
      var d := Entry(data, p.funcName);
      var hits := d.hits + 1;
      stackDepth := stackDepth - 1;
      p.myOverhead := p.myOverhead + Delta(dtorStart, dtorEnd, ticksPerUs) + 5;
      overhead[stackDepth] := overhead[stackDepth] + p.myOverhead + overhead[stackDepth + 1];
      var time := Delta(p.start, end, ticksPerUs) - p.myOverhead - overhead[stackDepth + 1];
      time := if time < 0 then 0 else time;
      var all := d.all + time;
      data := data[p.funcName := ProfileData(hits, all, all / hits)];
      open := open[..stackDepth];
    }

    /** A program whose profiled scopes nest like the given calls. */
    method Profile(calls: seq<Call>)
      requires Valid() && stackDepth + Height(calls) < MAX_PROFILE_STACK_SIZE
      modifies this`stackDepth, this`open, this`data, overhead
      ensures Valid() && Runs(old(S()), Events(calls), ticksPerUs) && S() == Run(old(S()), Events(calls), ticksPerUs)
      ensures CostAdded(old(S()), calls, S(), ticksPerUs) && TimeAdded(old(data), calls, data, ticksPerUs)
      decreases calls
    {
      hide Step, StateOk, Runs, Run, Height, Events, CostAdded, TimeAdded;
      ghost var s, t := S(), ticksPerUs;
      RunCalls(s, calls, t);
      if calls == [] {
        NoEvents(s, t);
        return;
      }
      var c := calls[0];
      Unfolded(s, calls, t);
      var p := Begin(c.name, c.start, c.ctorStart, c.ctorEnd);
      Profile(c.inner);
      End(p, c.dtorStart, c.dtorEnd, c.end);
      Profile(calls[1..]);
    }
  }

  lemma NoEvents(s: State, t: nat)
    requires t > 0 && StateOk(s)
    ensures Runs(s, Events([]), t) && Run(s, Events([]), t) == s
  {
  }

  /** The first call of a run: its two ends, with the calls inside it between them, and then the rest. */
  lemma Unfolded(s: State, calls: seq<Call>, t: nat)
    requires t > 0 && StateOk(s) && calls != [] && s.depth + Height(calls) < MAX_PROFILE_STACK_SIZE
    ensures Runs(s, Events(calls), t)
    ensures Height(calls[0].inner) < Height(calls) && Height(calls[1..]) <= Height(calls)
    ensures s.depth + 1 < MAX_PROFILE_STACK_SIZE && s.depth == |s.open|
    ensures var c := calls[0];
            var s1 := Step(s, EnterOf(c), t);
            s1.depth == s.depth + 1 && Runs(s1, Events(c.inner), t)
    ensures var c := calls[0];
            var s1 := Step(s, EnterOf(c), t);
            var s2 := Run(s1, Events(c.inner), t);
            && StateOk(s2) && s2.depth == s1.depth == |s2.open|
            && s2.open[s.depth] == OpenCall(c.name, c.start, Delta(c.ctorStart, c.ctorEnd, t))
            && s2.open == s1.open
    ensures var c := calls[0];
            var s2 := Run(Step(s, EnterOf(c), t), Events(c.inner), t);
            var s3 := Step(s2, Leave(c.dtorStart, c.dtorEnd, c.end), t);
            s3.depth == s.depth && Runs(s3, Events(calls[1..]), t)
            && Run(s, Events(calls), t) == Run(s3, Events(calls[1..]), t)
  {
    var c := calls[0];
    var leave := Leave(c.dtorStart, c.dtorEnd, c.end);
    Together(calls, t);
    var s1 := Step(s, EnterOf(c), t);
    RunOne(s, EnterOf(c), t);
    RunCalls(s1, c.inner, t);
    hide Runs, Run, Events, Cost, HitsOf, TimeOf, Entry, Delta;
    RunMore(s, [EnterOf(c)], Events(c.inner), t);
    var s2 := Run(s1, Events(c.inner), t);
    assert s2.open == s1.open;
    RunOne(s2, leave, t);
    RunMore(s, [EnterOf(c)] + Events(c.inner), [leave], t);
    var s3 := Step(s2, leave, t);
    RunCalls(s3, calls[1..], t);
    RunMore(s, FirstEvents(c), Events(calls[1..]), t);
  }
}
