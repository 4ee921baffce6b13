/**
 The queues of one Linda, as iw_lanes/keeper.lua keeps them: a slot per key, the values queued behind
 it, and an optional limit.
 */
module Keeper {
  import opened Basics

  type Key = nat

  /** 'false' is told apart from other values because the code tests the slot for truth. */
  datatype Value = Nil | False | Item(n: nat)

  /** What lies in a queue: nil only as 'nil_sentinel'. */
  datatype Entry = NilSentinel | FalseEntry | ItemEntry(n: nat)

  function Encode(v: Value): Entry {
    match v
    case Nil => NilSentinel
    case False => FalseEntry
    case Item(n) => ItemEntry(n)
  }

  function Decode(e: Entry): Value {
    match e
    case NilSentinel => Nil
    case FalseEntry => False
    case ItemEntry(n) => Item(n)
  }

  function Encoded(vals: seq<Value>): (es: seq<Entry>)
    ensures |es| == |vals| && forall i | 0 <= i < |vals| :: es[i] == Encode(vals[i]) && Decode(es[i]) == vals[i]
  {
    seq(|vals|, i requires 0 <= i < |vals| => Encode(vals[i]))
  }

  // ----- one queue, the slot first -----

  /** The length that 'send' goes by: a queue with 'false' in its slot counts as empty. */
  function Counted(q: seq<Entry>): nat {
    if q == [] || q[0] == FalseEntry then 0 else |q|
  }

  /** Whether 'send' places 'n' values. */
  predicate Fits(q: seq<Entry>, limit: Option<nat>, n: nat) {
    n == 0 || limit.None? || Counted(q) + n <= limit.value
  }

  function Min(a: nat, b: nat): nat {
    if a < b then a else b
  }

  /** A slot that holds 'false' is written over, and so are the values queued behind it. */
  function AfterSend(q: seq<Entry>, es: seq<Entry>): seq<Entry> {
    if q != [] && q[0] == FalseEntry then es + q[Min(|es|, |q|)..] else q + es
  }

  function AfterSet(v: Value): seq<Entry> {
    if v.Nil? then [] else [Encode(v)]
  }

  /** Sending appends, unless there is something to send and 'false' lies in the slot. */
  lemma AppendsUnlessFalse(q: seq<Entry>, es: seq<Entry>)
    ensures AfterSend(q, es) == q + es <==> es == [] || q == [] || q[0] != FalseEntry
  {
  }

  /** A limit of 0 refuses every value, even when the slot is vacant. */
  lemma LimitZeroRefuses(q: seq<Entry>, n: nat)
    ensures Fits(q, Some(0), n) <==> n == 0
  {
  }

  function PlacedAt(q: seq<Entry>, len: nat, e: Entry): seq<Entry>
    requires len <= |q|
  {
    if len < |q| then q[len := e] else q + [e]
  }

  lemma SendNothing(q: seq<Entry>)
    ensures AfterSend(q, []) == q
  {
  }

  /** One more value lands behind those already placed. */
  lemma SendNext(q: seq<Entry>, es: seq<Entry>, i: nat)
    requires i < |es|
    ensures Counted(q) + i <= |AfterSend(q, es[..i])|
    ensures PlacedAt(AfterSend(q, es[..i]), Counted(q) + i, es[i]) == AfterSend(q, es[..i + 1])
  {
    assert es[..i + 1] == es[..i] + [es[i]];
    if q != [] && q[0] == FalseEntry {
      var was := es[..i] + q[Min(i, |q|)..];
      assert was == AfterSend(q, es[..i]);
      if i < |q| {
        assert was[i := es[i]] == es[..i + 1] + q[i + 1..];
      }
    } else {
      assert AfterSend(q, es[..i + 1]) == q + es[..i] + [es[i]];
    }
  }

  /** Room never grows by sending. */
  lemma SendKeepsCount(q: seq<Entry>, es: seq<Entry>)
    ensures Counted(AfterSend(q, es)) >= Counted(q)
  {
  }

  // ----- the tables of a Linda -----

  class Tables {
    var data: map<Key, Entry>
    var incoming: map<Key, seq<Entry>>
    var limits: map<Key, nat>

    /** Values are queued only behind a slot in use. */
    ghost predicate Valid()
      reads this
    {
      forall k | k in incoming && incoming[k] != [] :: k in data
    }

    function Queue(k: Key): seq<Entry>
      reads this
    {
      if k in data then [data[k]] + (if k in incoming then incoming[k] else []) else []
    }

    function Limit(k: Key): Option<nat>
      reads this
    {
      if k in limits then Some(limits[k]) else None
    }

    constructor ()
      ensures Valid() && data == map[] && incoming == map[] && limits == map[]
    {
      data, incoming, limits := map[], map[], map[];
    }

    method Send(key: Key, vals: seq<Value>) returns (placed: bool)
      requires Valid()
      modifies this`data, this`incoming
      ensures Valid() && placed == Fits(old(Queue(key)), Limit(key), |vals|)
      ensures Queue(key) == if placed then AfterSend(old(Queue(key)), Encoded(vals)) else old(Queue(key))
      ensures forall k | k != key :: Queue(k) == old(Queue(k))
      ensures forall k :: Limit(k) == old(Limit(k))
    {
      hide AfterSend, Encoded, PlacedAt;
      ghost var q, es := Queue(key), Encoded(vals);
      SendNothing(q);
      var n := |vals|;
      if n == 0 {
        assert es == [];
        return true;
      }
      if key !in incoming {
        incoming := incoming[key := []];
      }
      var len := if key in data && data[key] != FalseEntry then 1 + |incoming[key]| else 0;
      if key in limits && len + n > limits[key] {
        return false;
      }
      var i := 0;
      assert es[..0] == [] && len == Counted(q) && Queue(key) == q;
      hide Tables.Queue, Tables.Valid, Counted;
      while i < n
        invariant 0 <= i <= n && Valid() && key in incoming && len == Counted(q) + i
        invariant Queue(key) == AfterSend(q, es[..i])
        invariant forall k | k != key :: Queue(k) == old(Queue(k))
      {
        SendNext(q, es, i);
        Place(key, len, Encode(vals[i]));
        len := len + 1;
        i := i + 1;
      }
      assert es[..n] == es;
      placed := true;
    }

    /** Writes the slot, or the entry that makes the queue 'len' + 1 long, or the one in its place. */
    method Place(key: Key, len: nat, val: Entry)
      requires Valid() && key in incoming && len <= |Queue(key)|
      modifies this`data, this`incoming
      ensures Valid() && key in incoming && forall k | k != key :: Queue(k) == old(Queue(k))
      ensures Queue(key) == PlacedAt(old(Queue(key)), len, val)
    {
      if len == 0 {
        data := data[key := val];
      } else {
        var t := incoming[key];
        incoming := incoming[key := if len <= |t| then t[len - 1 := val] else t + [val]];
      }
    }

    /** The first key of 'keys', in order, that has a value gives up its oldest one. */
    method Receive(keys: seq<Key>) returns (r: Option<(Value, Key)>)
      requires Valid()
      modifies this`data, this`incoming
      ensures Valid()
      ensures r.None? ==> forall i | 0 <= i < |keys| :: old(Queue(keys[i])) == []
      ensures r.Some? ==>
                && (exists i | 0 <= i < |keys| && keys[i] == r.value.1 ::
                      forall j | 0 <= j < i :: old(Queue(keys[j])) == [])
                && old(Queue(r.value.1)) != [] && r.value.0 == Decode(old(Queue(r.value.1))[0])
                && Queue(r.value.1) == old(Queue(r.value.1))[1..]
      ensures forall k | r.None? || k != r.value.1 :: Queue(k) == old(Queue(k))
      ensures forall k :: Limit(k) == old(Limit(k))
    {
      var i := 0;
      while i < |keys|
        invariant 0 <= i <= |keys| && Valid()
        invariant data == old(data) && incoming == old(incoming)
        invariant forall j | 0 <= j < i :: Queue(keys[j]) == []
      {
        var key := keys[i];
        if key in data {
          var val := data[key];
          if key in incoming && incoming[key] != [] {
            data := data[key := incoming[key][0]];
            incoming := incoming[key := incoming[key][1..]];
          } else {
            data := data - {key};
          }
          return Some((Decode(val), key));
        }
        i := i + 1;
      }
      r := None;
    }

    method SetLimit(key: Key, n: Option<nat>)
      requires Valid()
      modifies this`limits
      ensures Valid() && Limit(key) == n && forall k | k != key :: Limit(k) == old(Limit(k))
      ensures forall k :: Queue(k) == old(Queue(k))
    {
      limits := if n.Some? then limits[key := n.value] else limits - {key};
    }

    /** Replaces the slot and drops what is queued; nil clears both. */
    method Set(key: Key, val: Value)
      requires Valid()
      modifies this`data, this`incoming
      ensures Valid() && Queue(key) == AfterSet(val) && forall k | k != key :: Queue(k) == old(Queue(k))
    {
      data := if val.Nil? then data - {key} else data[key := Encode(val)];
      incoming := incoming - {key};
    }

    /** Looks at the oldest value without consuming it. */
    method Get(key: Key) returns (val: Value)
      ensures val == if Queue(key) == [] then Nil else Decode(Queue(key)[0])
    {
      val := if key in data then Decode(data[key]) else Nil;
    }
  }

  // ----- over any run -----

  /** The first of the keys that is full. */
  function FirstFull(full: Key -> bool, keys: seq<Key>): (k: Option<Key>)
    ensures k.Some? ==> k.value in keys && full(k.value)
    ensures k.None? ==> forall j | j in keys :: !full(j)
  {
    if keys == [] then None else if full(keys[0]) then Some(keys[0]) else FirstFull(full, keys[1..])
  }

  lemma {:induction false} FirstFullAt(full: Key -> bool, keys: seq<Key>, i: nat)
    requires i < |keys| && full(keys[i]) && forall j | 0 <= j < i :: !full(keys[j])
    ensures FirstFull(full, keys) == Some(keys[i])
  {
    if i > 0 {
      assert !full(keys[0]);
      assert forall j | 0 <= j < i - 1 :: keys[1..][j] == keys[j + 1];
      FirstFullAt(full, keys[1..], i - 1);
    }
  }

  datatype Op = SendOp(vals: seq<Value>) | ReceiveOp | LimitOp(n: Option<nat>)

  /** The queue of a key, its limit, and the values accepted and received so far. 'clobbered' records
      whether values have been placed while 'false' lay in the slot. */
  datatype Log = Log(q: seq<Entry>, limit: Option<nat>, sent: seq<Value>, received: seq<Value>, clobbered: bool)

  function Apply(s: Log, op: Op): Log {
    match op
    case SendOp(vals) =>
      if Fits(s.q, s.limit, |vals|) then
        s.(q := AfterSend(s.q, Encoded(vals)), sent := s.sent + vals,
           clobbered := s.clobbered || (vals != [] && s.q != [] && s.q[0] == FalseEntry))
      else s
    case ReceiveOp =>
      if s.q == [] then s else s.(q := s.q[1..], received := s.received + [Decode(s.q[0])])
    case LimitOp(n) => s.(limit := n)
  }

  datatype Call = SendTo(key: Key, vals: seq<Value>) | ReceiveFrom(keys: seq<Key>) | LimitTo(key: Key, n: Option<nat>)

  type Store = map<Key, Log>

  function LogOf(s: Store, k: Key): Log {
    if k in s then s[k] else Log([], None, [], [], false)
  }

  function Full(s: Store): Key -> bool {
    (k: Key) => LogOf(s, k).q != []
  }

  /** The key that a call is about, if any, and what it does there. */
  function Effect(s: Store, c: Call): Option<(Key, Op)> {
    match c
    case SendTo(k, vals) => Some((k, SendOp(vals)))
    case ReceiveFrom(keys) =>
      var k := FirstFull(Full(s), keys);
      if k.Some? then Some((k.value, ReceiveOp)) else None
    case LimitTo(k, n) => Some((k, LimitOp(n)))
  }

  function Next(s: Store, c: Call): Store {
    match Effect(s, c)
    case Some((k, op)) => s[k := Apply(LogOf(s, k), op)]
    case None => s
  }

  lemma NextLog(s: Store, c: Call, k: Key)
    ensures var e := Effect(s, c);
            LogOf(Next(s, c), k) == if e.Some? && e.value.0 == k then Apply(LogOf(s, k), e.value.1) else LogOf(s, k)
  {
  }

  /** What the calls add up to, from a Linda that has not been used. */
  function Run(calls: seq<Call>): Store
    decreases |calls|
  {
    if calls == [] then map[] else Next(Run(calls[..|calls| - 1]), calls[|calls| - 1])
  }

  function Decoded(q: seq<Entry>): (vals: seq<Value>)
    ensures |vals| == |q| && forall i | 0 <= i < |q| :: vals[i] == Decode(q[i])
  {
    seq(|q|, i requires 0 <= i < |q| => Decode(q[i]))
  }

  predicate Conserved(s: Log) {
    s.received + Decoded(s.q) == s.sent
  }

  /** Either all is conserved, or values have been written over and can no longer be made up for. */
  predicate Accounted(s: Log) {
    && (!s.clobbered ==> Conserved(s))
    && (s.clobbered ==> |s.received| + |s.q| < |s.sent|)
  }

  lemma SendAccounted(s: Log, vals: seq<Value>)
    requires Accounted(s) && Fits(s.q, s.limit, |vals|)
    ensures Accounted(Apply(s, SendOp(vals)))
  {
  }

  lemma ReceiveAccounted(s: Log)
    requires Accounted(s) && s.q != []
    ensures Accounted(Apply(s, ReceiveOp))
  {
  }

  lemma ApplyAccounted(s: Log, op: Op)
    requires Accounted(s)
    ensures Accounted(Apply(s, op))
  {
    hide AfterSend, Encoded, Decoded;
    match op {
      case SendOp(vals) =>
        if Fits(s.q, s.limit, |vals|) {
          SendAccounted(s, vals);
        }
      case ReceiveOp =>
        if s.q != [] {
          ReceiveAccounted(s);
        }
      case LimitOp(_) =>
    }
  }

  lemma {:induction false} RunAccounted(calls: seq<Call>, k: Key)
    ensures Accounted(LogOf(Run(calls), k))
    decreases |calls|
  {
    if calls != [] {
      var s := Run(calls[..|calls| - 1]);
      RunAccounted(calls[..|calls| - 1], k);
      hide Accounted, Apply;
      var e := Effect(s, calls[|calls| - 1]);
      if e.Some? && e.value.0 == k {
        ApplyAccounted(LogOf(s, k), e.value.1);
      }
    }
  }

  /** First in, first out, nothing lost and nothing doubled, on every key over every run without 'set':
      exactly when no values have been placed while 'false' lay in the slot of the key. */
  lemma FifoUnlessFalse(calls: seq<Call>, k: Key)
    ensures var s := LogOf(Run(calls), k); s.received + Decoded(s.q) == s.sent <==> !s.clobbered
  {
    hide Run;
    RunAccounted(calls, k);
  }

  lemma ApplyNoFalse(s: Log, op: Op)
    requires !s.clobbered && FalseEntry !in s.q && (op.SendOp? ==> False !in op.vals)
    ensures !Apply(s, op).clobbered && FalseEntry !in Apply(s, op).q
  {
    if op.SendOp? {
      forall e | e in Encoded(op.vals) ensures e != FalseEntry {
        var i :| 0 <= i < |op.vals| && Encoded(op.vals)[i] == e;
        assert op.vals[i] in op.vals;
      }
    }
  }

  /** What a caller can see to: if nobody sends 'false', everything is conserved in order on every key. */
  lemma {:induction false} FifoWithoutFalse(calls: seq<Call>, k: Key)
    requires forall c | c in calls && c.SendTo? :: False !in c.vals
    ensures var s := LogOf(Run(calls), k);
            s.received + Decoded(s.q) == s.sent && FalseEntry !in s.q && !s.clobbered
    decreases |calls|
  {
    RunAccounted(calls, k);
    if calls != [] {
      var s, c := Run(calls[..|calls| - 1]), calls[|calls| - 1];
      FifoWithoutFalse(calls[..|calls| - 1], k);
      assert c in calls && Run(calls) == Next(s, c);
      hide Apply, Encoded, Decoded, Run;
      var e := Effect(s, c);
      NextLog(s, c, k);
      if e.Some? && e.value.0 == k {
        ApplyNoFalse(LogOf(s, k), e.value.1);
      }
    }
  }

  /** 'false' and then another value: the receive yields the other value, 'false' is gone. */
  lemma FalseIsLost(k: Key)
    ensures var s := LogOf(Run([SendTo(k, [False]), SendTo(k, [Item(1)]), ReceiveFrom([k])]), k);
            s.sent == [False, Item(1)] && s.received == [Item(1)] && s.q == []
  {
    var calls := [SendTo(k, [False]), SendTo(k, [Item(1)]), ReceiveFrom([k])];
    assert calls[..2] == [SendTo(k, [False]), SendTo(k, [Item(1)])];
    assert calls[..2][..1] == [SendTo(k, [False])];
    assert LogOf(Run([SendTo(k, [False])]), k).q == [FalseEntry];
    assert LogOf(Run(calls[..2]), k).q == [ItemEntry(1)];
  }

  function History(m: map<Key, seq<Value>>, k: Key): seq<Value> {
    if k in m then m[k] else []
  }

  /** The tables hold, and the histories say, what 's' does. */
  ghost predicate Agree(t: Tables, sent: map<Key, seq<Value>>, received: map<Key, seq<Value>>, s: Store)
    reads t
  {
    && (forall k :: t.Queue(k) == LogOf(s, k).q && t.Limit(k) == LogOf(s, k).limit)
    && (forall k :: History(sent, k) == LogOf(s, k).sent && History(received, k) == LogOf(s, k).received)
  }

  method DoCall(t: Tables, call: Call, before: map<Key, seq<Value>>, got: map<Key, seq<Value>>, ghost s: Store)
    returns (sent: map<Key, seq<Value>>, received: map<Key, seq<Value>>)
    requires t.Valid() && Agree(t, before, got, s)
    modifies t
    ensures t.Valid() && Agree(t, sent, received, Next(s, call))
  {
    hide AfterSend, Encoded, Fits, FirstFull, LogOf, Next, Tables.Valid, Tables.Queue, Tables.Limit;
    sent, received := before, got;
    match call {
      case SendTo(key, vals) =>
        var placed := t.Send(key, vals);
        if placed {
          sent := sent[key := History(sent, key) + vals];
        }
      case ReceiveFrom(keys) =>
        ghost var full := Full(s);
        var r := t.Receive(keys);
        if r.Some? {
          var (val, key) := r.value;
          ghost var i :| 0 <= i < |keys| && keys[i] == key && forall j | 0 <= j < i :: !full(keys[j]);
          FirstFullAt(full, keys, i);
          received := received[key := History(received, key) + [val]];
        }
      case LimitTo(key, n) => t.SetLimit(key, n);
    }
    forall k: Key
      ensures t.Queue(k) == LogOf(Next(s, call), k).q && t.Limit(k) == LogOf(Next(s, call), k).limit
      ensures History(sent, k) == LogOf(Next(s, call), k).sent
      ensures History(received, k) == LogOf(Next(s, call), k).received
    {
      NextLog(s, call, k);
    }
  }

  /** Over any calls, from empty tables: queues and limits, and what has been accepted and received,
      are for every key what the calls add up to. */
  method Replay(t: Tables, calls: seq<Call>) returns (sent: map<Key, seq<Value>>, received: map<Key, seq<Value>>)
    requires t.Valid() && t.data == map[] && t.limits == map[]
    modifies t
    ensures t.Valid() && Agree(t, sent, received, Run(calls))
  {
    sent, received := map[], map[];
    for i := 0 to |calls|
      invariant t.Valid() && Agree(t, sent, received, Run(calls[..i]))
    {
      assert calls[..i + 1][..i] == calls[..i];
      hide Agree, Next;
      sent, received := DoCall(t, calls[i], sent, received, Run(calls[..i]));
    }
    assert calls[..|calls|] == calls;
  }
}
