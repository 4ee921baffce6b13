/**
 The life of lane records in iw_lanes/lanes.cpp on POSIX without 'pthread_timedjoin', debug asserts
 left out: the lane's exit, the '__gc' of its handle and the walks at process exit interleave at
 the steps between their locks. The chain is the 'contents' of SelfdestructChain.Chain, whose methods
 run under 'selfdestruct_cs'.
 */
module LaneLifecycle {
  import opened Basics
  import opened SelfdestructChain

  type LaneId = nat

  datatype Status = Pending | Running | Waiting | Done | ErrorSt | Cancelled

  /** Where lane_main stands. 'Dead' is a lane whose kill took effect. */
  datatype Pc =
    | Starting
    | Body
    | Closing
    | Detaching
    | Detached
    | SelfFreed
    | Finishing(result: Status)
    | Signalling
    | Exited
    | Dead

  /** Where the owner of the handle stands; 'waited' if THREAD_WAIT came before the clean up. */
  datatype Handle =
    | Live
    | Adding
    | AwaitingKill
    | CleaningUp(waited: bool)
    | GoneAdded
    | GoneFreed(waited: bool)

  /** The last three remember what happened: '__gc' found the status below DONE, the lane found itself
      linked, and the record was freed before the lane had signalled and unlocked. */
  datatype Lane = Lane(
    pc: Pc,
    status: Status,
    handle: Handle,
    killed: bool,
    joined: bool,
    cancel: bool,
    frees: nat,
    tookForRunning: bool,
    sawLink: bool,
    freedEarly: bool)

  const NEW := Lane(Starting, Pending, Live, false, false, false, 0, false, false, false)

  /** A walk along the chain under 'selfdestruct_cs': the first flags the lanes, the second counts. */
  datatype Walk = NoWalk | At(i: nat, flagging: bool)

  datatype State = State(lanes: map<LaneId, Lane>, chain: seq<LaneId>, walk: Walk)

  datatype Action =
    | Create(l: LaneId)
    // lane_main
    | Start(l: LaneId)
    | Block(l: LaneId, waiting: bool)
    | EndBody(l: LaneId, result: Status)
    | CloseState(l: LaneId)
    | Detach(l: LaneId)
    | FreeSelf(l: LaneId)
    | StoreStatus(l: LaneId)
    | SignalDone(l: LaneId)
    | Die(l: LaneId)
    // users of the handle
    | Inspect(l: LaneId)
    | Cancel(l: LaneId)
    | Kill(l: LaneId)
    | Join(l: LaneId)
    // __gc of the handle
    | Collect(l: LaneId)
    | Add(l: LaneId)
    | AwaitKilled(l: LaneId)
    | CleanUp(l: LaneId)
    // process exit
    | StartWalk(flagging: bool)
    | WalkStep

  const INIT := State(map[], [], NoWalk)

  /** DONE and what comes after it in 'enum e_status'. */
  predicate Ended(st: Status) {
    st.Done? || st.ErrorSt? || st.Cancelled?
  }

  predicate Enabled(s: State, a: Action) {
    match a
    case Create(l) => l !in s.lanes
    case StartWalk(_) => s.walk.NoWalk?
    case WalkStep => s.walk.At?
    case _ => a.l in s.lanes && LaneEnabled(s.lanes[a.l], s.walk, a)
  }

  predicate LaneEnabled(r: Lane, walk: Walk, a: Action) {
    match a
    case Start(_) => r.pc.Starting?
    case Block(_, _) => r.pc.Body?
    case EndBody(_, result) => r.pc.Body? && Ended(result)
    case CloseState(_) => r.pc.Closing?
    case Detach(_) => r.pc.Detaching? && walk.NoWalk?
    case FreeSelf(_) => r.pc.Detached?
    case StoreStatus(_) => r.pc.Finishing?
    case SignalDone(_) => r.pc.Signalling?
    case Die(_) => r.killed && (r.pc.Starting? || r.pc.Body? || r.pc.Closing? || r.pc.Finishing?)
    case Inspect(_) => r.handle.Live?
    case Cancel(_) => r.handle.Live? && !Ended(r.status)
    case Kill(_) => r.handle.Live? && r.cancel
    case Join(_) => r.handle.Live? && Ended(r.status) && !r.pc.Signalling?
    case Collect(_) => r.handle.Live?
    case Add(_) => r.handle.Adding? && walk.NoWalk?
    case AwaitKilled(_) => r.handle.AwaitingKill? && Ended(r.status) && !r.pc.Signalling?
    case CleanUp(_) => r.handle.CleaningUp?
    case _ => false
  }

  /** What a step does to the record of its lane. */
  function LaneStep(r: Lane, linked: bool, a: Action): Lane {
    match a
    // s->status= RUNNING
    case Start(_) => r.(pc := Body, status := Running)
    case Block(_, waiting) => r.(status := if waiting then Waiting else Running)
    // if (s->selfdestruct_next != NULL)
    case EndBody(_, result) => r.(pc := if linked then Closing else Finishing(result), sawLink := linked)
    // lua_close, SIGNAL_FREE, MUTEX_FREE
    case CloseState(_) => r.(pc := Detaching)
    // selfdestruct_remove
    case Detach(_) => r.(pc := Detached)
    // free(s)
    case FreeSelf(_) => r.(pc := SelfFreed, frees := r.frees + 1)
    // MUTEX_LOCK( &s->done_lock_ ); s->status= st
    case StoreStatus(_) => r.(pc := Signalling, status := if r.pc.Finishing? then r.pc.result else r.status)
    // SIGNAL_ONE, MUTEX_UNLOCK
    case SignalDone(_) => r.(pc := Exited)
    case Die(_) => r.(pc := Dead)
    case Cancel(_) => r.(cancel := true)
    case Kill(_) => r.(killed := true)
    case Join(_) => r.(joined := true)
    case Collect(_) =>
      // if (s->status < DONE) .. else if (s->mstatus==s_lane::KILLED)
      r.(handle := if !Ended(r.status) then Adding else if r.killed then AwaitingKill else CleaningUp(false),
         tookForRunning := !Ended(r.status))
    // selfdestruct_add
    case Add(_) => r.(handle := GoneAdded)
    // THREAD_WAIT takes 'done_lock_' before it looks at the status
    case AwaitKilled(_) => r.(handle := CleaningUp(true))
    // SIGNAL_FREE, MUTEX_FREE, free(s)
    case CleanUp(_) =>
      r.(handle := GoneFreed(r.handle.CleaningUp? && r.handle.waited), frees := r.frees + 1,
         freedEarly := r.pc.Signalling?)
    case _ => r
  }

  /** One step; an action that is not enabled changes nothing. */
  function Next(s: State, a: Action): State {
    if !Enabled(s, a) then s
    else
      match a
      case Create(l) => s.(lanes := s.lanes[l := NEW])
      case StartWalk(flagging) => s.(walk := At(0, flagging))
      case WalkStep =>
        if s.walk.i < |s.chain| && s.chain[s.walk.i] in s.lanes then
          var l := s.chain[s.walk.i];
          s.(walk := At(s.walk.i + 1, s.walk.flagging),
             lanes := if s.walk.flagging then s.lanes[l := s.lanes[l].(cancel := true)] else s.lanes)
        else
          s.(walk := NoWalk)
      case _ =>
        var l := a.l;
        State(s.lanes[l := LaneStep(s.lanes[l], l in s.chain, a)],
              if a.Add? then [l] + s.chain else if a.Detach? then Without(s.chain, l) else s.chain,
              s.walk)
  }

  function Run(s: State, actions: seq<Action>): State
    decreases |actions|
  {
    if actions == [] then s else Run(Next(s, actions[0]), actions[1..])
  }

  /** The records a step reads or writes; creating one, waiting for nothing and dying touch none. */
  function Touched(s: State, a: Action): set<LaneId>
    requires Enabled(s, a)
  {
    match a
    case Create(_) => {}
    case Die(_) => {}
    case StartWalk(_) => {}
    case WalkStep => if s.walk.i < |s.chain| then {s.chain[s.walk.i]} else {}
    // selfdestruct_remove reads the records before its own in the chain
    case Detach(l) => {l} + set k | k in s.chain
    case _ => {a.l}
  }

  predicate Freed(s: State, l: LaneId) {
    l in s.lanes && s.lanes[l].frees > 0
  }

  // ----- what every step keeps -----

  /** The record of one lane: its exit and its handle never both own it. */
  predicate LaneOk(r: Lane, linked: bool) {
    && (linked <==> r.handle.GoneAdded? && !r.pc.Detached? && !r.pc.SelfFreed?)
    && (r.pc.Closing? || r.pc.Detaching? || r.pc.Detached? || r.pc.SelfFreed? ==> r.handle.GoneAdded?)
    && (Ended(r.status) <==> r.pc.Signalling? || r.pc.Exited?)
    && (r.handle.AwaitingKill? || r.handle.CleaningUp? || r.handle.GoneFreed? ==> Ended(r.status))
    && (r.pc.Finishing? ==> Ended(r.pc.result))
    && (r.joined ==> r.pc.Exited? && !r.tookForRunning)
    && ((r.handle.CleaningUp? || r.handle.GoneFreed?) && r.handle.waited ==> r.pc.Exited?)
    && (r.pc.Dead? ==> r.killed)
    && (r.tookForRunning <==> r.handle.Adding? || r.handle.GoneAdded?)
    && (r.sawLink ==> r.pc.Closing? || r.pc.Detaching? || r.pc.Detached? || r.pc.SelfFreed? || r.pc.Dead?)
    && (r.pc.Closing? || r.pc.Detaching? || r.pc.Detached? || r.pc.SelfFreed? ==> r.sawLink)
    && (r.freedEarly ==> r.handle.GoneFreed? && !r.joined && !r.killed)
    && (r.pc.Signalling? && r.handle.GoneFreed? ==> r.freedEarly)
    && (r.pc.Signalling? && r.handle.CleaningUp? ==> !r.killed)
    && r.frees == (if r.pc.SelfFreed? then 1 else 0) + (if r.handle.GoneFreed? then 1 else 0)
  }

  ghost predicate LanesOk(s: State) {
    forall l | l in s.lanes :: LaneOk(s.lanes[l], l in s.chain)
  }

  predicate ChainOk(s: State) {
    && Distinct(s.chain)
    && (forall l | l in s.chain :: l in s.lanes)
    && (s.walk.At? ==> s.walk.i <= |s.chain|)
    && (s.walk.At? && s.walk.flagging ==> forall j | 0 <= j < s.walk.i :: s.lanes[s.chain[j]].cancel)
  }

  ghost predicate Inv(s: State) {
    LanesOk(s) && ChainOk(s)
  }

  lemma LaneStepKeeps(r: Lane, linked: bool, walk: Walk, a: Action)
    requires LaneOk(r, linked) && LaneEnabled(r, walk, a)
    ensures LaneOk(LaneStep(r, linked, a), if a.Add? then true else if a.Detach? then false else linked)
  {
  }

  lemma NextKeeps(s: State, a: Action)
    requires Inv(s)
    ensures Inv(Next(s, a))
  {
    if Enabled(s, a) {
      if a.Create? || a.StartWalk? || a.WalkStep? {
        OtherNextKeeps(s, a);
      } else {
        hide LaneOk, LaneStep, Next;
        LaneStepKeeps(s.lanes[a.l], a.l in s.chain, s.walk, a);
        WithoutMember(s.chain, a.l);
        LaneNextKeeps(s, a);
      }
    }
  }

  lemma OtherNextKeeps(s: State, a: Action)
    requires Inv(s) && Enabled(s, a) && (a.Create? || a.StartWalk? || a.WalkStep?)
    ensures Inv(Next(s, a))
  {
    hide LaneStep, LaneEnabled;
  }

  lemma LaneNextKeeps(s: State, a: Action)
    requires Inv(s) && Enabled(s, a) && !a.Create? && !a.StartWalk? && !a.WalkStep?
    requires LaneOk(LaneStep(s.lanes[a.l], a.l in s.chain, a),
                    if a.Add? then true else if a.Detach? then false else a.l in s.chain)
    requires Distinct(Without(s.chain, a.l))
    requires forall k :: k in Without(s.chain, a.l) <==> k in s.chain && k != a.l
    ensures Inv(Next(s, a))
  {
    hide Without;
    var s' := Next(s, a);
    assert LaneStep(s.lanes[a.l], a.l in s.chain, a).cancel || !s.lanes[a.l].cancel;
    if a.Add? {
      assert LaneOk(s.lanes[a.l], a.l in s.chain);
      assert forall k :: k in s'.chain <==> k == a.l || k in s.chain;
    }
    hide LaneStep;
    assert LanesOk(s') by {
      hide LaneOk;
    }
  }

  lemma {:induction false} RunKeeps(s: State, actions: seq<Action>)
    requires Inv(s)
    ensures Inv(Run(s, actions))
    decreases |actions|
  {
    hide Inv, Next;
    if actions != [] {
      NextKeeps(s, actions[0]);
      RunKeeps(Next(s, actions[0]), actions[1..]);
    }
  }

  // ----- over every interleaving -----

  /** A record is freed at most once, never while it is linked, never while its handle is live. */
  lemma FreedOnce(actions: seq<Action>, l: LaneId)
    requires l in Run(INIT, actions).lanes
    ensures var s := Run(INIT, actions);
            && s.lanes[l].frees <= 1
            && (Freed(s, l) ==> l !in s.chain && !s.lanes[l].handle.Live?)
  {
    hide Run;
    RunKeeps(INIT, actions);
  }

  /** The one step that can touch a freed record is the lane's own signal and unlock after it has stored
      its status, and it does exactly if the clean up came between; not once somebody has joined or
      killed the lane. */
  lemma TouchesOnlyUnfreed(actions: seq<Action>, a: Action, l: LaneId)
    requires Enabled(Run(INIT, actions), a) && l in Touched(Run(INIT, actions), a)
    ensures Freed(Run(INIT, actions), l) <==> a.SignalDone? && Run(INIT, actions).lanes[l].freedEarly
    ensures Freed(Run(INIT, actions), l) ==>
              !Run(INIT, actions).lanes[l].joined && !Run(INIT, actions).lanes[l].killed
  {
    hide Run;
    RunKeeps(INIT, actions);
    assert l in Run(INIT, actions).lanes;
  }

  /** A step changes the record of a lane by LaneStep, or flags it, or leaves it as it is. */
  lemma NextLane(s: State, l: LaneId, a: Action)
    requires l in s.lanes
    ensures l in Next(s, a).lanes
    ensures
      || Next(s, a).lanes[l] == s.lanes[l]
      || Next(s, a).lanes[l] == s.lanes[l].(cancel := true)
      || (&& !a.Create? && !a.StartWalk? && !a.WalkStep? && a.l == l
          && LaneEnabled(s.lanes[l], s.walk, a)
          && Next(s, a).lanes[l] == LaneStep(s.lanes[l], l in s.chain, a))
  {
    hide LaneStep, LaneEnabled;
  }

  /** The lane has been killed and is on its way out, and its handle waits for it to get there. */
  predicate Awaited(r: Lane) {
    && r.killed && Ended(r.status)
    && (r.pc.Exited? || (r.pc.Signalling? && (r.handle.Live? || r.handle.AwaitingKill?)))
  }

  lemma AwaitedStays(r: Lane, linked: bool, walk: Walk, a: Action)
    requires Awaited(r) && LaneEnabled(r, walk, a)
    ensures Awaited(LaneStep(r, linked, a))
  {
  }

  lemma {:induction false} AwaitedFreedLater(s: State, l: LaneId, actions: seq<Action>)
    requires Inv(s) && l in s.lanes && Awaited(s.lanes[l])
    ensures !(Enabled(Run(s, actions), SignalDone(l)) && Freed(Run(s, actions), l))
    decreases |actions|
  {
    if actions == [] {
      assert LaneOk(s.lanes[l], l in s.chain);
    } else {
      var a := actions[0];
      hide Inv, Next, Freed, Enabled, LaneStep, LaneEnabled;
      NextKeeps(s, a);
      NextLane(s, l, a);
      if LaneEnabled(s.lanes[l], s.walk, a) {
        AwaitedStays(s.lanes[l], l in s.chain, s.walk, a);
      }
      AwaitedFreedLater(Next(s, a), l, actions[1..]);
    }
  }

  lemma FreedEarly(s: State, l: LaneId)
    requires Inv(s) && l in s.lanes && s.lanes[l].pc.Signalling? && s.lanes[l].handle.Live? && !s.lanes[l].killed
    ensures var s' := Next(Next(s, Collect(l)), CleanUp(l)); Enabled(s', SignalDone(l)) && Freed(s', l)
  {
    assert LaneOk(s.lanes[l], l in s.chain);
  }

  lemma RunNothing(s: State)
    ensures Run(s, []) == s
  {
  }

  lemma Run2(s: State, a: Action, b: Action, rest: seq<Action>)
    ensures Run(s, [a, b] + rest) == Run(Next(Next(s, a), b), rest)
  {
  }

  /** From every state in which a lane has stored its status and its handle is live: the record can be
      freed before the lane unlocks it if and only if the lane has not been killed. */
  lemma UnlockMayFollowFree(s: State, l: LaneId)
    requires Inv(s) && l in s.lanes && s.lanes[l].pc.Signalling? && s.lanes[l].handle.Live?
    ensures !s.lanes[l].killed <==>
            exists run :: Enabled(Run(s, run), SignalDone(l)) && Freed(Run(s, run), l)
  {
    if s.lanes[l].killed {
      assert LaneOk(s.lanes[l], l in s.chain);
      forall run ensures !(Enabled(Run(s, run), SignalDone(l)) && Freed(Run(s, run), l)) {
        AwaitedFreedLater(s, l, run);
      }
    } else {
      hide Run, Next, Enabled, Freed;
      FreedEarly(s, l);
      Run2(s, Collect(l), CleanUp(l), []);
      RunNothing(Next(Next(s, Collect(l)), CleanUp(l)));
      assert Enabled(Run(s, [Collect(l), CleanUp(l)] + []), SignalDone(l));
    }
  }

  /** '__gc' frees only after the lane has stored its final status, a lane only after it was handed
      over and has left the chain. */
  lemma WhoFrees(actions: seq<Action>, l: LaneId)
    requires Freed(Run(INIT, actions), l)
    ensures var r := Run(INIT, actions).lanes[l];
            || (r.handle.GoneFreed? && Ended(r.status) && !r.pc.SelfFreed?)
            || (r.handle.GoneAdded? && r.pc.SelfFreed? && !Ended(r.status))
  {
    hide Run;
    RunKeeps(INIT, actions);
  }

  predicate Settled(r: Lane) {
    && (r.pc.Exited? || r.pc.SelfFreed? || r.pc.Dead?)
    && (r.handle.GoneAdded? || r.handle.GoneFreed?)
  }

  /** When lane and handle are both through, the record has been freed exactly once, unless '__gc'
      took the lane for running, and the lane then found no link or was killed on its way: it is linked
      then, and unfreed. */
  lemma FreedUnlessMissed(actions: seq<Action>, l: LaneId)
    requires l in Run(INIT, actions).lanes && Settled(Run(INIT, actions).lanes[l])
    ensures var s := Run(INIT, actions); var r := s.lanes[l];
            && r.frees == (if r.tookForRunning && (!r.sawLink || r.pc.Dead?) then 0 else 1)
            && (r.frees == 0 <==> l in s.chain)
  {
    hide Run;
    RunKeeps(INIT, actions);
  }

  /** Who joins a lane before its handle goes, has it freed exactly once. */
  lemma JoinedIsFreed(actions: seq<Action>, l: LaneId)
    requires l in Run(INIT, actions).lanes
    requires Settled(Run(INIT, actions).lanes[l]) && Run(INIT, actions).lanes[l].joined
    ensures Run(INIT, actions).lanes[l].frees == 1 && l !in Run(INIT, actions).chain
  {
    hide Run;
    RunKeeps(INIT, actions);
  }

  lemma MissedStays(s: State, l: LaneId, a: Action)
    requires l in s.lanes && s.lanes[l].handle.GoneAdded? && (s.lanes[l].pc.Exited? || s.lanes[l].pc.Dead?)
    ensures l in Next(s, a).lanes && Next(s, a).lanes[l].handle.GoneAdded?
    ensures Next(s, a).lanes[l].pc == s.lanes[l].pc
  {
    hide Next;
    NextLane(s, l, a);
  }

  /** Once missed, always missed, whatever happens later. */
  lemma {:induction false} MissedForEver(s: State, l: LaneId, actions: seq<Action>)
    requires Inv(s)
    requires l in s.lanes && s.lanes[l].handle.GoneAdded? && (s.lanes[l].pc.Exited? || s.lanes[l].pc.Dead?)
    ensures l in Run(s, actions).chain && !Freed(Run(s, actions), l)
    decreases |actions|
  {
    if actions == [] {
      assert LaneOk(s.lanes[l], l in s.chain);
    } else {
      hide Inv, Next, Enabled, LaneOk;
      NextKeeps(s, actions[0]);
      MissedStays(s, l, actions[0]);
      MissedForEver(Next(s, actions[0]), l, actions[1..]);
    }
  }

  /** The lane misses the link when it looks for it before '__gc' has added it; its record is then
      linked and unfreed although lane and handle are both through. */
  lemma MissHappens()
    ensures var s' := Run(INIT, [Create(0), Start(0), Collect(0), EndBody(0, Done), StoreStatus(0), Add(0)]);
            var s := Next(s', SignalDone(0));
            0 in s.lanes && Settled(s.lanes[0]) && 0 in s.chain && !Freed(s, 0)
  {
    var s2 := Next(Next(INIT, Create(0)), Start(0));
    var s4 := Next(Next(s2, Collect(0)), EndBody(0, Done));
    assert s4.lanes[0] == NEW.(pc := Finishing(Done), status := Running, handle := Adding, tookForRunning := true);
    var s6 := Next(Next(s4, StoreStatus(0)), Add(0));
    assert s6.chain == [0];
    hide Next;
    Run2(s4, StoreStatus(0), Add(0), []);
    RunNothing(s6);
    Run2(s2, Collect(0), EndBody(0, Done), [StoreStatus(0), Add(0)]);
    Run2(INIT, Create(0), Start(0), [Collect(0), EndBody(0, Done), StoreStatus(0), Add(0)]);
  }

  /** When the flagging walk lets go of the lock, every lane in the chain has been told to cancel. */
  lemma WalkFlagsAll(actions: seq<Action>)
    requires var s := Run(INIT, actions); s.walk.At? && s.walk.flagging && Next(s, WalkStep).walk.NoWalk?
    ensures var s := Next(Run(INIT, actions), WalkStep);
            forall l | l in s.chain :: l in s.lanes && s.lanes[l].cancel
  {
    hide Run;
    RunKeeps(INIT, actions);
    var s := Run(INIT, actions);
    assert forall j | 0 <= j < |s.chain| :: s.chain[j] in s.lanes;
    assert s.walk.i == |s.chain|;
  }
}
