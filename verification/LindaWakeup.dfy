/**
 Sleeping and waking on one Linda (iw_lanes/lanes.cpp): senders wait on 'read_happened', receivers on
 'write_happened'. A step is what a thread does while it holds the keeper lock; a wait gives the lock
 up in the same step, and a thread that has been woken may be overtaken before it has the lock again.
 */
module LindaWakeup {
  import opened Basics
  import opened Keeper

  type Thread = nat

  /** 'asleep' inside SIGNAL_WAIT; otherwise woken, and about to try again. */
  datatype Pc = Sending(key: Key, vals: seq<Value>, asleep: bool) | Receiving(keys: seq<Key>, asleep: bool)

  datatype State = State(queues: map<Key, seq<Entry>>, limits: map<Key, nat>, threads: map<Thread, Pc>)

  /** 'patient' tells whether the thread waits if it has to: it has time left and no cancel request. */
  datatype Action =
    | Send(t: Thread, key: Key, vals: seq<Value>, patient: bool)
    | Receive(t: Thread, keys: seq<Key>, patient: bool)
    | Retry(t: Thread, patient: bool)
    | WakeUp(t: Thread)
    | TimeOut(t: Thread)
    | Set(key: Key, val: Value)
    | Limit(key: Key, n: Option<nat>)

  function Queue(s: State, k: Key): seq<Entry> {
    if k in s.queues then s.queues[k] else []
  }

  function LimitOf(s: State, k: Key): Option<nat> {
    if k in s.limits then Some(s.limits[k]) else None
  }

  /** SIGNAL_ALL on one of the two conditions. */
  function SignalAll(threads: map<Thread, Pc>, senders: bool): map<Thread, Pc> {
    map t | t in threads :: if threads[t].Sending? == senders then threads[t].(asleep := false) else threads[t]
  }

  predicate Enabled(s: State, a: Action) {
    match a
    case Send(t, _, _, _) => t !in s.threads
    case Receive(t, _, _) => t !in s.threads
    case Retry(t, _) => t in s.threads && !s.threads[t].asleep
    case WakeUp(t) => t in s.threads && s.threads[t].asleep
    case TimeOut(t) => t in s.threads && s.threads[t].asleep
    case _ => true
  }

  /** One pass of the loop in linda_send. */
  function TrySend(s: State, t: Thread, key: Key, vals: seq<Value>, patient: bool): State {
    if Fits(Queue(s, key), LimitOf(s, key), |vals|) then
      s.(queues := s.queues[key := AfterSend(Queue(s, key), Encoded(vals))],
         threads := SignalAll(s.threads, false) - {t})
    else if patient then s.(threads := s.threads[t := Sending(key, vals, true)])
    else s.(threads := s.threads - {t})
  }

  /** One pass of the loop in linda_receive. */
  function TryReceive(s: State, t: Thread, keys: seq<Key>, patient: bool): State {
    match FirstFull((k: Key) => Queue(s, k) != [], keys)
    case Some(k) => s.(queues := s.queues[k := Queue(s, k)[1..]], threads := SignalAll(s.threads, true) - {t})
    case None =>
      if patient then s.(threads := s.threads[t := Receiving(keys, true)]) else s.(threads := s.threads - {t})
  }

  /** One step; an action that is not enabled changes nothing. */
  function Next(s: State, a: Action): State {
    if !Enabled(s, a) then s
    else
      match a
      case Send(t, key, vals, patient) => TrySend(s, t, key, vals, patient)
      case Receive(t, keys, patient) => TryReceive(s, t, keys, patient)
      case Retry(t, patient) =>
        (match s.threads[t]
         case Sending(key, vals, _) => TrySend(s, t, key, vals, patient)
         case Receiving(keys, _) => TryReceive(s, t, keys, patient))
      case WakeUp(t) => s.(threads := s.threads[t := s.threads[t].(asleep := false)])
      case TimeOut(t) => s.(threads := s.threads - {t})
      case Set(key, val) =>
        s.(queues := s.queues[key := AfterSet(val)],
           threads := if val.Nil? then s.threads else SignalAll(s.threads, false))
      case Limit(key, n) => s.(limits := if n.Some? then s.limits[key := n.value] else s.limits - {key})
  }

  function Run(s: State, actions: seq<Action>): State
    decreases |actions|
  {
    if actions == [] then s else Run(Next(s, actions[0]), actions[1..])
  }

  // ----- no lost wakeups -----

  /** No receiver sleeps while one of its keys has a value. */
  ghost predicate ReceiversOk(s: State) {
    forall t | t in s.threads && s.threads[t].Receiving? && s.threads[t].asleep ::
      forall k | k in s.threads[t].keys :: Queue(s, k) == []
  }

  predicate HasRoom(s: State, pc: Pc)
    requires pc.Sending?
  {
    Fits(Queue(s, pc.key), LimitOf(s, pc.key), |pc.vals|)
  }

  /** No sender sleeps while its values fit. */
  ghost predicate SendersOk(s: State) {
    forall t | t in s.threads && s.threads[t].Sending? && s.threads[t].asleep :: !HasRoom(s, s.threads[t])
  }

  lemma NextReceivers(s: State, a: Action)
    requires ReceiversOk(s)
    ensures ReceiversOk(Next(s, a))
  {
    hide AfterSend, Fits, Encoded;
  }

  lemma NextSenders(s: State, a: Action)
    requires SendersOk(s) && !a.Set? && !a.Limit?
    ensures SendersOk(Next(s, a))
  {
    hide AfterSend, Encoded, Counted;
    forall q, es ensures Counted(AfterSend(q, es)) >= Counted(q) {
      SendKeepsCount(q, es);
    }
  }

  lemma {:induction false} RunReceivers(s: State, actions: seq<Action>)
    requires ReceiversOk(s)
    ensures ReceiversOk(Run(s, actions))
    decreases |actions|
  {
    hide ReceiversOk, Next;
    if actions != [] {
      NextReceivers(s, actions[0]);
      RunReceivers(Next(s, actions[0]), actions[1..]);
    }
  }

  lemma {:induction false} RunSenders(s: State, actions: seq<Action>)
    requires SendersOk(s) && forall a | a in actions :: !a.Set? && !a.Limit?
    ensures SendersOk(Run(s, actions))
    decreases |actions|
  {
    hide SendersOk, Next;
    if actions != [] {
      NextSenders(s, actions[0]);
      RunSenders(Next(s, actions[0]), actions[1..]);
    }
  }

  /** Whatever is called on the Linda, a receiver never sleeps on a value. */
  lemma NoReceiverMissesValue(actions: seq<Action>, t: Thread, k: Key)
    requires var s := Run(State(map[], map[], map[]), actions);
             t in s.threads && s.threads[t].Receiving? && s.threads[t].asleep && k in s.threads[t].keys
    ensures Queue(Run(State(map[], map[], map[]), actions), k) == []
  {
    hide Run;
    RunReceivers(State(map[], map[], map[]), actions);
  }

  /** With limits as they were set up, a sender never sleeps while its values fit, as long as 'limit'
      and 'set' are not called. */
  lemma NoSenderMissesRoom(queues: map<Key, seq<Entry>>, limits: map<Key, nat>, actions: seq<Action>, t: Thread)
    requires forall a | a in actions :: !a.Set? && !a.Limit?
    requires var s := Run(State(queues, limits, map[]), actions);
             t in s.threads && s.threads[t].Sending? && s.threads[t].asleep
    ensures var s := Run(State(queues, limits, map[]), actions); !HasRoom(s, s.threads[t])
  {
    hide Run, HasRoom;
    RunSenders(State(queues, limits, map[]), actions);
  }

  /** 'set' signals no sender: it leaves none asleep with room exactly if none of those asleep on the
      key would fit beside the new value; nil and 'false' count as no value. */
  lemma SetSenders(s: State, key: Key, val: Value)
    requires SendersOk(s)
    ensures SendersOk(Next(s, Set(key, val))) <==>
              forall t | t in s.threads && s.threads[t].Sending? && s.threads[t].asleep && s.threads[t].key == key ::
                !Fits([], LimitOf(s, key), |s.threads[t].vals| + if val.Item? then 1 else 0)
  {
    var s' := Next(s, Set(key, val));
    forall t | t in s.threads && s.threads[t].Sending? && s.threads[t].asleep
      ensures s'.threads[t] == s.threads[t]
      ensures HasRoom(s', s.threads[t]) <==>
                s.threads[t].key == key && Fits([], LimitOf(s, key), |s.threads[t].vals| + if val.Item? then 1 else 0)
    {
      assert !HasRoom(s, s.threads[t]);
    }
  }

  /** 'limit' signals nobody: it leaves no sender asleep with room exactly if none of those asleep on
      the key would fit under the new limit. */
  lemma LimitSenders(s: State, key: Key, n: Option<nat>)
    requires SendersOk(s)
    ensures SendersOk(Next(s, Limit(key, n))) <==>
              forall t | t in s.threads && s.threads[t].Sending? && s.threads[t].asleep && s.threads[t].key == key ::
                !Fits(Queue(s, key), n, |s.threads[t].vals|)
  {
  }

  const FULL := State(map[0 := [ItemEntry(7)]], map[0 := 1], map[])

  /** A sender that sleeps on a full queue sleeps on after the queue has been cleared. */
  lemma SenderMissesClear()
    ensures var s := Run(FULL, [Send(1, 0, [Item(8)], true), Set(0, Nil)]);
            1 in s.threads && s.threads[1] == Sending(0, [Item(8)], true) && HasRoom(s, s.threads[1])
  {
  }

  /** And on after the limit has been lifted. */
  lemma SenderMissesLimit()
    ensures var s := Run(FULL, [Send(1, 0, [Item(8)], true), Limit(0, None)]);
            1 in s.threads && s.threads[1] == Sending(0, [Item(8)], true) && HasRoom(s, s.threads[1])
  {
  }
}
