/**
 The process that waits for operating system handles on behalf of others (iw_core/ProcHandleWaiter.cpp):
 each request owns a slot with its handle and a timer, and every round lays the slots out in the array
 that WaitForMultipleObjects takes. What the system and the senders do is a parameter.
 */
module HandleWaiter {
  import opened Basics
  import opened SkipErase

  /** 0 is NULL. */
  type Handle = nat

  const MAXIMUM_WAIT_OBJECTS := 64
  const ARRAY_SIZE := 200
  const WAIT_OBJECT_0 := 0
  const WAIT_ABANDONED_0 := 0x80
  const WAIT_TIMEOUT := 258

  datatype Request = Request(sender: nat, handle: Handle, timeout: nat)

  /** An answer to the sender of 'request', the 'serial'-th one submitted. */
  datatype Ack = Ack(serial: nat, request: Request, code: nat)

  datatype Message = NoMessage | ReadError | Shutdown | Submit(request: Request) | Oob(handled: bool)

  /** The system's choice of a signalled handle, and the message that is read if it is the first. */
  datatype Wake = Wake(index: nat, abandoned: bool, message: Message)

  datatype Outcome = Running | Stopped | Thrown

  class WaiterSlot {
    const handle: Handle
    const origRequest: Request
    var timerHandle: Handle
    // which request of all it is, and how many slots were before it when it was submitted
    const serial: nat
    ghost const ahead: nat

    constructor (request: Request, timer: Handle, serial: nat, ghost ahead: nat)
      ensures handle == request.handle && origRequest == request && timerHandle == timer
      ensures this.serial == serial && this.ahead == ahead
    {
      handle, origRequest, timerHandle := request.handle, request, timer;
      this.serial, this.ahead := serial, ahead;
    }
  }

  function Serials(acks: seq<Ack>): set<nat> {
    set i | 0 <= i < |acks| :: acks[i].serial
  }

  /** Every answer is to a submitted request, and no request has two. */
  predicate AcksOk(acks: seq<Ack>, submitted: seq<Request>) {
    && (forall i | 0 <= i < |acks| :: acks[i].serial < |submitted| && acks[i].request == submitted[acks[i].serial])
    && (forall i, j | 0 <= i < j < |acks| :: acks[i].serial != acks[j].serial)
  }

  lemma OneMoreAck(acks: seq<Ack>, submitted: seq<Request>, a: Ack)
    requires AcksOk(acks, submitted)
    requires a.serial < |submitted| && a.request == submitted[a.serial] && a.serial !in Serials(acks)
    ensures AcksOk(acks + [a], submitted) && Serials(acks + [a]) == Serials(acks) + {a.serial}
  {
    var all := acks + [a];
    assert all[|acks|] == a;
    assert forall i | 0 <= i < |acks| :: all[i] == acks[i] && acks[i].serial in Serials(acks);
    assert forall n | n in Serials(acks) :: exists i :: 0 <= i < |all| && all[i].serial == n;
  }

  lemma OneMoreRequest(acks: seq<Ack>, submitted: seq<Request>, r: Request)
    requires AcksOk(acks, submitted)
    ensures AcksOk(acks, submitted + [r]) && |submitted| !in Serials(acks)
  {
  }

  ghost predicate InOrder(slots: seq<WaiterSlot>) {
    forall i, j | 0 <= i < j < |slots| :: slots[i].serial < slots[j].serial
  }

  /** Slots stand in the order of submission and belong to their requests. */
  ghost predicate SlotsOk(slots: seq<WaiterSlot>, submitted: seq<Request>) {
    && InOrder(slots)
    && (forall s | s in slots :: s.serial < |submitted| && s.origRequest == submitted[s.serial])
    && (forall s | s in slots :: s.handle == s.origRequest.handle)
  }

  /** A slot has been left out at most as often as slots before it have gone. */
  ghost predicate Patient(slots: seq<WaiterSlot>, leftOut: map<nat, nat>) {
    forall i | 0 <= i < |slots| :: slots[i].serial in leftOut && leftOut[slots[i].serial] + i <= slots[i].ahead
  }

  function Among(d: set<WaiterSlot>): WaiterSlot -> bool {
    s => s in d
  }

  // ----- one walk over the slots -----

  /** What a round starts with: the slots, the obsolete ones, and how often each has been left out. */
  datatype RoundStart = RoundStart(was: seq<WaiterSlot>, dead: set<WaiterSlot>, leftOut: map<nat, nat>)

  ghost predicate SweepSoFar(r: RoundStart, slots: seq<WaiterSlot>, i: nat, placed: seq<WaiterSlot>)
    requires i <= |slots|
  {
    && slots[..i] + Swept(slots[i..], Among(r.dead)) == Swept(r.was, Among(r.dead))
    && placed + Seen(slots[i..], Among(r.dead)) == Seen(r.was, Among(r.dead))
  }

  ghost predicate Members(r: RoundStart, slots: seq<WaiterSlot>, i: nat, placed: seq<WaiterSlot>)
    requires i <= |slots|
  {
    && InOrder(slots) && |placed| <= i
    && (forall s | s in placed :: s in slots[..i])
    && (forall s | s in slots :: s in r.was)
    && (forall s | s in r.was && s !in r.dead :: s in slots)
  }

  /** A slot that has stayed but found no place has been left out once more. */
  ghost predicate LeftOutSince(r: RoundStart, now: seq<WaiterSlot>, placed: seq<WaiterSlot>, leftOut: map<nat, nat>) {
    && leftOut.Keys == r.leftOut.Keys
    && forall s | s in r.was && s.serial in r.leftOut ::
         leftOut[s.serial] == r.leftOut[s.serial] + if s in now && s !in placed then 1 else 0
  }

  ghost predicate Walked(
      r: RoundStart, slots: seq<WaiterSlot>, leftOut: map<nat, nat>, i: nat, placed: seq<WaiterSlot>) {
    && i <= |slots| <= |r.was| && InOrder(r.was)
    && SweepSoFar(r, slots, i, placed) && Members(r, slots, i, placed)
    && LeftOutSince(r, slots[..i], placed, leftOut) && Patient(slots, leftOut)
  }

  lemma WalkStarts(r: RoundStart)
    requires InOrder(r.was) && Patient(r.was, r.leftOut)
    ensures Walked(r, r.was, r.leftOut, 0, [])
  {
  }

  lemma WalkPlaces(r: RoundStart, slots: seq<WaiterSlot>, leftOut: map<nat, nat>, i: nat, placed: seq<WaiterSlot>)
    requires Walked(r, slots, leftOut, i, placed) && i < |slots| && slots[i] !in r.dead
    ensures Walked(r, slots, leftOut, i + 1, placed + [slots[i]]) && slots[i] !in placed
  {
    hide Swept, Seen, Patient;
    PassKeeps(slots, i, Among(r.dead));
    Associative(placed, [slots[i]], Seen(slots[i + 1..], Among(r.dead)));
    assert slots[..i + 1] == slots[..i] + [slots[i]];
  }

  function Erased(slots: seq<WaiterSlot>, i: nat): seq<WaiterSlot>
    requires i < |slots|
  {
    slots[..i] + slots[i + 1..]
  }

  lemma ErasedAt(slots: seq<WaiterSlot>, i: nat)
    requires i < |slots| && InOrder(slots)
    ensures InOrder(Erased(slots, i)) && |Erased(slots, i)| == |slots| - 1 && Erased(slots, i)[..i] == slots[..i]
    ensures forall j | 0 <= j < |slots| - 1 :: Erased(slots, i)[j] == slots[if j < i then j else j + 1]
    ensures forall s :: s in Erased(slots, i) <==> s in slots && s != slots[i]
  {
  }

  lemma MembersErase(r: RoundStart, slots: seq<WaiterSlot>, i: nat, placed: seq<WaiterSlot>, i': nat)
    requires i < |slots| && i <= i' <= |slots| - 1
    requires Members(r, slots, i, placed) && slots[i] in r.dead
    ensures Members(r, Erased(slots, i), i', placed)
  {
    ErasedAt(slots, i);
    var slots' := Erased(slots, i);
    hide Erased, InOrder;
    forall s | s in placed ensures s in slots'[..i'] {
      var j :| 0 <= j < i && slots[..i][j] == s;
      assert slots'[..i'][j] == s;
    }
  }

  /** The last slot is erased: the loop ends. */
  lemma WalkErasesLast(r: RoundStart, slots: seq<WaiterSlot>, leftOut: map<nat, nat>, i: nat, placed: seq<WaiterSlot>)
    requires Walked(r, slots, leftOut, i, placed) && i == |slots| - 1 && slots[i] in r.dead
    ensures Walked(r, Erased(slots, i), leftOut, i, placed)
  {
    MembersErase(r, slots, i, placed, i);
    ErasedAt(slots, i);
    SweepEnds(r, slots, i, placed);
    hide SweepSoFar, Members, InOrder, LeftOutSince;
  }

  lemma SweepEnds(r: RoundStart, slots: seq<WaiterSlot>, i: nat, placed: seq<WaiterSlot>)
    requires i == |slots| - 1 && SweepSoFar(r, slots, i, placed) && slots[i] in r.dead
    ensures SweepSoFar(r, Erased(slots, i), i, placed)
  {
  }

  function LeaveOut(leftOut: map<nat, nat>, n: nat): map<nat, nat>
    requires n in leftOut
  {
    leftOut[n := leftOut[n] + 1]
  }

  /** The slot that moves up is stepped over, and so is left out of this round. */
  lemma WalkErases(r: RoundStart, slots: seq<WaiterSlot>, leftOut: map<nat, nat>, i: nat, placed: seq<WaiterSlot>)
    requires Walked(r, slots, leftOut, i, placed) && i < |slots| - 1 && slots[i] in r.dead
    ensures slots[i + 1].serial in leftOut
    ensures Walked(r, Erased(slots, i), LeaveOut(leftOut, slots[i + 1].serial), i + 1, placed)
  {
    MembersErase(r, slots, i, placed, i + 1);
    PassErases(slots, i, Among(r.dead));
    ErasedAt(slots, i);
    LeftOutOne(r, slots, leftOut, i, placed);
    hide Swept, Seen, Members, InOrder, LeftOutSince, Patient;
    assert Patient(slots, leftOut);
  }

  lemma LeftOutOne(r: RoundStart, slots: seq<WaiterSlot>, leftOut: map<nat, nat>, i: nat, placed: seq<WaiterSlot>)
    requires i < |slots| - 1 && Members(r, slots, i, placed) && InOrder(r.was)
    requires LeftOutSince(r, slots[..i], placed, leftOut) && Patient(slots, leftOut)
    ensures slots[i + 1].serial in leftOut
    ensures var slots', leftOut' := Erased(slots, i), LeaveOut(leftOut, slots[i + 1].serial);
            Patient(slots', leftOut') && LeftOutSince(r, slots'[..i + 1], placed, leftOut')
  {
    ErasedAt(slots, i);
    var slots' := Erased(slots, i);
    assert slots'[..i + 1] == slots[..i] + [slots[i + 1]];
    assert slots[i + 1] !in slots[..i] && slots[i + 1] in r.was;
  }

  lemma WalkEnds(r: RoundStart, slots: seq<WaiterSlot>, leftOut: map<nat, nat>, i: nat, placed: seq<WaiterSlot>)
    requires Walked(r, slots, leftOut, i, placed) && i == |slots|
    ensures slots == Swept(r.was, Among(r.dead)) && placed == Seen(r.was, Among(r.dead))
    ensures LeftOutSince(r, slots, placed, leftOut)
  {
  }

  // ----- requests and answers -----

  /** A request has either a live slot or an answer. */
  ghost predicate Accounted(slots: seq<WaiterSlot>, dead: set<WaiterSlot>, live: map<nat, WaiterSlot>,
                            acks: seq<Ack>, submitted: seq<Request>)
  {
    && AcksOk(acks, submitted)
    && (forall n | n in live :: live[n] in slots && live[n].serial == n && live[n] !in dead)
    && (forall s | s in slots && s !in dead :: s.serial in live)
    && (forall n | 0 <= n < |submitted| :: n in live <==> n !in Serials(acks))
  }

  ghost predicate OneObsolete(slots: seq<WaiterSlot>, dead: set<WaiterSlot>) {
    forall s, t | s in slots && t in slots && s in dead && t in dead :: s == t
  }

  lemma {:induction false} DeadAt(slots: seq<WaiterSlot>, dead: set<WaiterSlot>)
    requires InOrder(slots) && OneObsolete(slots, dead)
    ensures !TwoInARow(slots, Among(dead))
    ensures |Swept(slots, Among(dead))| <= |Seen(slots, Among(dead))| + 1
  {
    if k :| 0 <= k < |slots| && slots[k] in dead {
      OneSwept(slots, k, Among(dead));
    } else {
      NothingSwept(slots, Among(dead));
    }
  }

  /** With one obsolete slot at most, none is left, and one slot at most has found no place. */
  lemma RoundLaidOut(r: RoundStart, slots: seq<WaiterSlot>, leftOut: map<nat, nat>, i: nat, placed: seq<WaiterSlot>)
    requires Walked(r, slots, leftOut, i, placed) && i == |slots| && OneObsolete(r.was, r.dead)
    ensures forall s :: s in slots <==> s in r.was && s !in r.dead
    ensures |slots| <= |placed| + 1 && InOrder(slots) && forall s | s in placed :: s in slots
  {
    WalkEnds(r, slots, leftOut, i, placed);
    DeadAt(r.was, r.dead);
    SweepsAllIff(r.was, Among(r.dead));
    forall s | s in slots ensures s !in r.dead {
      var j :| 0 <= j < |slots| && slots[j] == s;
      assert !Among(r.dead)(slots[j]);
    }
    assert slots[..i] == slots;
  }

  lemma AnswerAccounted(slots: seq<WaiterSlot>, live: map<nat, WaiterSlot>, acks: seq<Ack>, submitted: seq<Request>,
                        s: WaiterSlot, code: nat)
    requires Accounted(slots, {}, live, acks, submitted) && SlotsOk(slots, submitted) && s in slots
    ensures Accounted(slots, {s}, live - {s.serial}, acks + [Ack(s.serial, s.origRequest, code)], submitted)
  {
    OneMoreAck(acks, submitted, Ack(s.serial, s.origRequest, code));
    hide AcksOk, Serials;
    forall n | n in live && n != s.serial ensures live[n] != s {
    }
    forall t | t in slots && t != s ensures t.serial != s.serial {
    }
  }

  lemma RequestAccounted(slots: seq<WaiterSlot>, live: map<nat, WaiterSlot>, acks: seq<Ack>, submitted: seq<Request>,
                         s: WaiterSlot)
    requires Accounted(slots, {}, live, acks, submitted) && SlotsOk(slots, submitted)
    requires s.serial == |submitted| && s.handle == s.origRequest.handle
    ensures Accounted(slots + [s], {}, live[s.serial := s], acks, submitted + [s.origRequest])
    ensures SlotsOk(slots + [s], submitted + [s.origRequest])
  {
    OneMoreRequest(acks, submitted, s.origRequest);
    hide AcksOk, Serials;
    var slots' := slots + [s];
    assert forall t :: t in slots' <==> t in slots || t == s;
    forall i, j | 0 <= i < j < |slots'| ensures slots'[i].serial < slots'[j].serial {
      assert slots'[i] in slots;
    }
  }

  lemma PatientMore(slots: seq<WaiterSlot>, leftOut: map<nat, nat>, s: WaiterSlot, submitted: seq<Request>)
    requires Patient(slots, leftOut) && SlotsOk(slots, submitted) && s.serial == |submitted| && s.ahead == |slots|
    ensures Patient(slots + [s], leftOut[s.serial := 0])
  {
  }

  // ----- the process -----

  class ProcHandleWaiter {
    var slots: seq<WaiterSlot>
    const waitHandles: array<Handle>
    const quickAccess: array<WaiterSlot?>
    var acks: seq<Ack>
    var nextTimer: Handle
    var submitted: seq<Request>
    ghost var live: map<nat, WaiterSlot>
    ghost var leftOut: map<nat, nat>

    ghost function SlotSet(): set<WaiterSlot>
      reads this
    {
      set s | s in slots
    }

    ghost function Obsolete(): set<WaiterSlot>
      reads this, slots
    {
      set s | s in slots && s.timerHandle == 0
    }

    ghost predicate Valid()
      reads this, slots
    {
      && waitHandles.Length == ARRAY_SIZE && quickAccess.Length == ARRAY_SIZE && nextTimer > 0
      && |slots| <= MAXIMUM_WAIT_OBJECTS / 2 + 1
      && SlotsOk(slots, submitted) && Patient(slots, leftOut)
      && Accounted(slots, Obsolete(), live, acks, submitted) && OneObsolete(slots, Obsolete())
    }

    constructor ()
      ensures Valid() && fresh(waitHandles) && fresh(quickAccess)
      ensures slots == [] && acks == [] && submitted == []
    {
      waitHandles := new Handle[ARRAY_SIZE](_ => 0);
      quickAccess := new WaiterSlot?[ARRAY_SIZE](_ => null);
      slots, acks, nextTimer, submitted, live, leftOut := [], [], 1, [], map[], map[];
    }

    /** The pairs of the wait array, from index 2 on, are those of 'placed': the event handle of a slot
        at the even index, its timer at the odd one. */
    ghost predicate LaidOut(placed: seq<WaiterSlot>)
      reads waitHandles, quickAccess, placed
    {
      && waitHandles.Length == ARRAY_SIZE && quickAccess.Length == ARRAY_SIZE && 2 * |placed| + 2 <= ARRAY_SIZE
      && forall p | 0 <= p < |placed| :: PairLaidOut(placed[p], p + 1)
    }

    ghost predicate PairLaidOut(s: WaiterSlot, pairIndex: nat)
      requires waitHandles.Length == ARRAY_SIZE && quickAccess.Length == ARRAY_SIZE && 2 * pairIndex + 1 < ARRAY_SIZE
      reads waitHandles, quickAccess, s
    {
      && waitHandles[2 * pairIndex] == s.handle && waitHandles[2 * pairIndex + 1] == s.timerHandle
      && quickAccess[2 * pairIndex] == s && quickAccess[2 * pairIndex + 1] == s
    }

    method PlacePair(s: WaiterSlot, pairIndex: nat, ghost placed: seq<WaiterSlot>)
      requires LaidOut(placed) && pairIndex == |placed| + 1 && 2 * pairIndex + 1 < ARRAY_SIZE
      modifies waitHandles, quickAccess
      ensures LaidOut(placed + [s])
    {
      var eventIndex := 2 * pairIndex;
      var timerIndex := eventIndex + 1;
      waitHandles[eventIndex] := s.handle;
      waitHandles[timerIndex] := s.timerHandle;
      quickAccess[eventIndex] := s;
      quickAccess[timerIndex] := s;
      forall p | 0 <= p < |placed| ensures PairLaidOut(placed[p], p + 1) {
        assert old(PairLaidOut(placed[p], p + 1));
      }
    }

    /** Lays out the slots; the loop steps over the slot after an erased one. */
    method InitHandlesArray() returns (nCount: nat, ghost placed: seq<WaiterSlot>)
      requires Valid()
      modifies this`slots, this`leftOut, waitHandles, quickAccess
      ensures Valid() && Obsolete() == {} && LaidOut(placed) && nCount == 2 * (|placed| + 1)
      ensures forall s :: s in slots <==> s in old(slots) && s !in old(Obsolete())
      ensures |slots| <= |placed| + 1 && forall s | s in placed :: s in slots
      ensures LeftOutSince(RoundStart(old(slots), old(Obsolete()), old(leftOut)), slots, placed, leftOut)
    {
      hide Walked, SlotsOk, Patient, PairLaidOut, LeftOutSince, Accounted, OneObsolete, InOrder, Erased, LaidOut;
      ghost var r := RoundStart(slots, Obsolete(), leftOut);
      var pairIndex := 1;
      placed := [];
      var i := 0;
      ValidWalk();
      WalkStarts(r);
      while i < |slots|
        invariant i <= |slots| <= |r.was| && pairIndex == |placed| + 1 && |placed| <= i
        invariant Walked(r, slots, leftOut, i, placed) && LaidOut(placed)
        decreases |slots| - i
      {
        SlotInRound(r, slots, leftOut, i, placed);
        var slot := slots[i];
        if slot.timerHandle == 0 {
          ghost var before := slots;
          slots := Erased(slots, i);
          if i == |slots| {
            WalkErasesLast(r, before, leftOut, i, placed);
            break;
          }
          WalkErases(r, before, leftOut, i, placed);
          leftOut := LeaveOut(leftOut, before[i + 1].serial);
        } else {
          WalkPlaces(r, slots, leftOut, i, placed);
          PlacePair(slot, pairIndex, placed);
          placed := placed + [slot];
          pairIndex := pairIndex + 1;
        }
        i := i + 1;
      }
      RoundDone(r, slots, leftOut, i, placed, submitted, live, acks);
      nCount := pairIndex * 2;
      assert Obsolete() == {};
    }

    lemma ValidWalk()
      requires Valid()
      ensures InOrder(slots) && Patient(slots, leftOut) && LaidOut([])
    {
    }

    /** What WaitForMultipleObjects answers: it fails on too many handles; otherwise it names one of
        them, and only handles that came with a request can be abandoned mutexes. */
    ghost predicate MayAnswer(nCount: nat, waitRes: nat) {
      && nCount <= MAXIMUM_WAIT_OBJECTS
      && (waitRes < WAIT_OBJECT_0 + nCount || AbandonedAnswer(nCount, waitRes))
    }

    ghost predicate AbandonedAnswer(nCount: nat, waitRes: nat) {
      WAIT_ABANDONED_0 + 2 <= waitRes < WAIT_ABANDONED_0 + nCount && waitRes % 2 == 0
    }

    /** The handle that the system picks. */
    function Chosen(wake: Wake, nCount: nat): (index: nat)
      requires nCount >= 2
      ensures index < nCount
    {
      wake.index % nCount
    }

    method WaitForMultipleObjects(nCount: nat, wake: Wake) returns (failed: bool, waitRes: nat)
      requires nCount >= 2
      ensures failed <==> nCount > MAXIMUM_WAIT_OBJECTS
      ensures !failed ==> MayAnswer(nCount, waitRes)
      ensures || waitRes == Chosen(wake, nCount)
              || (Chosen(wake, nCount) >= 2 && waitRes == WAIT_ABANDONED_0 + Chosen(wake, nCount))
    {
      var index := Chosen(wake, nCount);
      failed := nCount > MAXIMUM_WAIT_OBJECTS;
      waitRes := index + if wake.abandoned && index >= 2 && index % 2 == 0 then WAIT_ABANDONED_0 else WAIT_OBJECT_0;
    }

    /** One handle beyond the first two has been signalled: its slot is answered and becomes obsolete. */
    method HandleSignal(nCount: nat, waitRes: nat, ghost placed: seq<WaiterSlot>)
      returns (signaledIndex: nat, ghost fired: WaiterSlot)
      requires Valid() && Obsolete() == {} && LaidOut(placed) && nCount == 2 * (|placed| + 1)
      requires forall s | s in placed :: s in slots
      requires MayAnswer(nCount, waitRes) && waitRes >= WAIT_OBJECT_0 + 2
      modifies quickAccess, this`acks, this`live, SlotSet()`timerHandle
      ensures Valid() && slots == old(slots)
      ensures signaledIndex ==
                waitRes - if AbandonedAnswer(nCount, waitRes) then WAIT_ABANDONED_0 else WAIT_OBJECT_0
      ensures 2 <= signaledIndex < nCount && fired == placed[signaledIndex / 2 - 1]
      ensures old(waitHandles[signaledIndex]) == if signaledIndex % 2 == 0 then fired.handle else old(fired.timerHandle)
      ensures acks == old(acks) + [Ack(fired.serial, fired.origRequest,
                if signaledIndex % 2 == 1 then WAIT_TIMEOUT
                else if AbandonedAnswer(nCount, waitRes) then WAIT_ABANDONED_0 else WAIT_OBJECT_0)]
      ensures Obsolete() == {fired}
    {
      hide SlotsOk, Patient, Accounted, PairLaidOut;
      var abandoned := false;
      if WAIT_OBJECT_0 <= waitRes <= WAIT_OBJECT_0 + nCount - 1 {
        signaledIndex := waitRes - WAIT_OBJECT_0;
      } else {
        signaledIndex := waitRes - WAIT_ABANDONED_0;
        abandoned := true;
      }
      PairAt(placed, signaledIndex);
      var ws := quickAccess[signaledIndex];
      fired := ws;
      quickAccess[signaledIndex] := null;
      quickAccess[signaledIndex + 1] := null;
      var code :=
        if signaledIndex % 2 == 1 then WAIT_TIMEOUT else if abandoned then WAIT_ABANDONED_0 else WAIT_OBJECT_0;
      AnswerAccounted(slots, live, acks, submitted, ws, code);
      acks := acks + [Ack(ws.serial, ws.origRequest, code)];
      live := live - {ws.serial};
      ws.timerHandle := 0;
      assert Obsolete() == {ws};
    }

    lemma PairAt(placed: seq<WaiterSlot>, i: nat)
      requires LaidOut(placed) && 2 <= i < 2 * (|placed| + 1)
      ensures quickAccess[i] == placed[i / 2 - 1]
      ensures waitHandles[i] == if i % 2 == 0 then placed[i / 2 - 1].handle else placed[i / 2 - 1].timerHandle
    {
    }

    /** Reads a message; a request gets a slot at the end of the list. */
    method ProcessIwMessage(message: Message) returns (shutdown: bool, thrown: bool)
      requires Valid() && Obsolete() == {} && |slots| <= MAXIMUM_WAIT_OBJECTS / 2
      modifies this`slots, this`submitted, this`live, this`leftOut, this`nextTimer
      ensures Valid() && shutdown == message.Shutdown? && thrown == (message.Oob? && !message.handled)
      ensures if message.Submit?
              then |slots| == |old(slots)| + 1 && slots[..|old(slots)|] == old(slots) && fresh(slots[|old(slots)|])
                && submitted == old(submitted) + [message.request] && slots[|old(slots)|].serial == |old(submitted)|
                && slots[|old(slots)|].ahead == |old(slots)|
              else slots == old(slots) && submitted == old(submitted)
    {
      hide SlotsOk, Patient, Accounted;
      shutdown, thrown := false, false;
      match message {
        case NoMessage =>
        case ReadError =>
        case Shutdown => shutdown := true;
        case Submit(request) =>
          var s := new WaiterSlot(request, nextTimer, |submitted|, |slots|);
          RequestAccounted(slots, live, acks, submitted, s);
          PatientMore(slots, leftOut, s, submitted);
          nextTimer := nextTimer + 1;
          live, leftOut := live[s.serial := s], leftOut[s.serial := 0];
          submitted := submitted + [request];
          slots := slots + [s];
          assert Obsolete() == {};
        case Oob(handled) => thrown := !handled;
      }
    }

    /** One pass of the loop in real_run: the system signals one of the 'nCount' handles. */
    method Round(wake: Wake) returns (outcome: Outcome, ghost nCount: nat)
      requires Valid()
      modifies this, waitHandles, quickAccess, SlotSet()`timerHandle
      ensures Valid() && nCount >= 2 && forall s | s in slots :: s in old(slots) || fresh(s)
      ensures nCount <= MAXIMUM_WAIT_OBJECTS ==>
                && old(acks) <= acks
                && |acks| == |old(acks)| + (if Chosen(wake, nCount) >= 2 then 1 else 0)
                && submitted == old(submitted) +
                     (if Chosen(wake, nCount) == 0 && wake.message.Submit? then [wake.message.request] else [])
      ensures nCount > MAXIMUM_WAIT_OBJECTS ==> acks == old(acks) && submitted == old(submitted)
      ensures outcome.Thrown? <==>
                || nCount > MAXIMUM_WAIT_OBJECTS
                || (Chosen(wake, nCount) == 0 && wake.message.Oob? && !wake.message.handled)
      ensures outcome.Stopped? <==>
                nCount <= MAXIMUM_WAIT_OBJECTS && Chosen(wake, nCount) == 0 && wake.message.Shutdown?
    {
      hide SlotsOk, Patient, Accounted, LaidOut, LeftOutSince, Chosen;
      var count, placed := InitHandlesArray();
      nCount := count;
      var failed, waitRes := WaitForMultipleObjects(count, wake);
      if failed {
        return Thrown, nCount;
      }
      if waitRes == WAIT_OBJECT_0 {
        var shutdown, thrown := ProcessIwMessage(wake.message);
        return if thrown then Thrown else if shutdown then Stopped else Running, nCount;
      }
      if waitRes == WAIT_OBJECT_0 + 1 {
        return Running, nCount;
      }
      assert forall s | s in slots :: s in old(slots);
      var _, _ := HandleSignal(count, waitRes, placed);
      outcome := Running;
    }

    /** The process from its start, whatever is signalled and sent: every answer goes to the sender of
        its request, no request has two, those without one have a live slot, and no slot has been left
        out of more rounds than there were slots before it. */
    method Run(wakes: seq<Wake>)
      requires Valid() && slots == [] && acks == [] && submitted == []
      modifies this, waitHandles, quickAccess
      ensures AcksOk(acks, submitted)
      ensures forall n | 0 <= n < |submitted| && n !in Serials(acks) ::
                exists s :: s in slots && s.timerHandle != 0 && s.serial == n
      ensures forall s | s in slots && s.timerHandle != 0 :: s.serial !in Serials(acks)
      ensures forall s | s in slots :: s.serial in leftOut && leftOut[s.serial] <= s.ahead
    {
      hide Valid;
      for k := 0 to |wakes|
        invariant Valid() && forall s | s in slots :: fresh(s)
      {
        var outcome, _ := Round(wakes[k]);
        if !outcome.Running? {
          break;
        }
      }
      ValidMeans();
    }

    lemma ValidMeans()
      requires Valid()
      ensures AcksOk(acks, submitted)
      ensures forall n | 0 <= n < |submitted| && n !in Serials(acks) ::
                exists s :: s in slots && s.timerHandle != 0 && s.serial == n
      ensures forall s | s in slots && s.timerHandle != 0 :: s.serial !in Serials(acks)
      ensures forall s | s in slots :: s.serial in leftOut && leftOut[s.serial] <= s.ahead
    {
    }
  }

  lemma SlotInRound(r: RoundStart, slots: seq<WaiterSlot>, leftOut: map<nat, nat>, i: nat, placed: seq<WaiterSlot>)
    requires Walked(r, slots, leftOut, i, placed) && i < |slots|
    ensures slots[i] in r.was && |Erased(slots, i)| == |slots| - 1
  {
  }

  lemma RoundDone(r: RoundStart, slots: seq<WaiterSlot>, leftOut: map<nat, nat>, i: nat, placed: seq<WaiterSlot>,
                  submitted: seq<Request>, live: map<nat, WaiterSlot>, acks: seq<Ack>)
    requires Walked(r, slots, leftOut, i, placed) && i == |slots| && OneObsolete(r.was, r.dead)
    requires SlotsOk(r.was, submitted) && Accounted(r.was, r.dead, live, acks, submitted)
    ensures forall s :: s in slots <==> s in r.was && s !in r.dead
    ensures |slots| <= |placed| + 1 && forall s | s in placed :: s in slots
    ensures SlotsOk(slots, submitted) && Accounted(slots, {}, live, acks, submitted) && OneObsolete(slots, {})
    ensures Patient(slots, leftOut) && LeftOutSince(r, slots, placed, leftOut)
  {
    hide Walked, SlotsOk, Accounted, Patient, LeftOutSince, InOrder;
    WalkEnds(r, slots, leftOut, i, placed);
    RoundLaidOut(r, slots, leftOut, i, placed);
    WalkPatient(r, slots, leftOut, i, placed);
    StillOk(r, slots, submitted, live, acks);
  }

  lemma WalkPatient(r: RoundStart, slots: seq<WaiterSlot>, leftOut: map<nat, nat>, i: nat, placed: seq<WaiterSlot>)
    requires Walked(r, slots, leftOut, i, placed)
    ensures Patient(slots, leftOut)
  {
  }

  lemma StillOk(r: RoundStart, slots: seq<WaiterSlot>, submitted: seq<Request>, live: map<nat, WaiterSlot>,
                acks: seq<Ack>)
    requires SlotsOk(r.was, submitted) && Accounted(r.was, r.dead, live, acks, submitted)
    requires InOrder(slots) && forall s :: s in slots <==> s in r.was && s !in r.dead
    ensures SlotsOk(slots, submitted) && Accounted(slots, {}, live, acks, submitted)
  {
  }
}
