/**
 Waiting for the response of a transaction (iw_core/LightweightProcess.cpp) over the selection from
 several channels (iw_core/LpHandle.cpp). What arrives when, and how long answering takes, is a
 parameter; the clock counts milliseconds.
 */
module WaitForTxn {
  import opened Basics

  type Channel = nat
  type HandleId = int

  datatype Body = Ping | Other(id: nat)

  datatype Message = Message(body: Body, source: HandleId, txn: int)

  datatype Pong = Pong(dest: HandleId, txn: int)

  datatype Arrival = Arrival(at: nat, to: Channel, msg: Message)

  datatype ApiErrorCode = API_SUCCESS | API_FAILURE | API_TIMEOUT | API_WRONG_PARAMETER | API_UNKNOWN_RESPONSE

  const MAX_NUM_OF_CHANNELS_IN_SELECT := 10

  /** The messages among 'future' that will come through 'c'. */
  function Coming(future: seq<Arrival>, c: Channel): seq<Message> {
    if future == [] then [] else (if future[0].to == c then [future[0].msg] else []) + Coming(future[1..], c)
  }

  /** One pong for every ping, to its source and with its transaction id. */
  function Pongs(pings: seq<Message>): (pongs: seq<Pong>)
    ensures |pongs| == |pings| && forall i | 0 <= i < |pings| :: pongs[i] == Pong(pings[i].source, pings[i].txn)
  {
    seq(|pings|, i requires 0 <= i < |pings| => Pong(pings[i].source, pings[i].txn))
  }

  lemma HeadFirst<T>(q: seq<T>, rest: seq<T>)
    requires q != []
    ensures q == [q[0]] + q[1..] && q + rest == [q[0]] + (q[1..] + rest)
  {
  }

  lemma ComingHead(future: seq<Arrival>, c: Channel)
    requires future != []
    ensures Coming(future, c) ==
            if future[0].to == c then [future[0].msg] + Coming(future[1..], c) else Coming(future[1..], c)
  {
  }

  lemma OneMorePong(pings: seq<Message>, p: Message)
    ensures Pongs(pings + [p]) == Pongs(pings) + [Pong(p.source, p.txn)]
  {
  }

  lemma NoPongs(stream: seq<Message>)
    ensures Pongs([]) == [] && [] + stream == stream
  {
  }

  class Kernel {
    var now: nat
    var queues: map<Channel, seq<Message>>
    var future: seq<Arrival>
    var sent: seq<Pong>
    var waited: nat
    const handling: nat

    constructor (future: seq<Arrival>, handling: nat)
      ensures Settled() && now == 0 && sent == [] && waited == 0
      ensures forall c :: Stream(c) == Coming(future, c)
    {
      now, queues, this.future, sent, waited, this.handling := 0, map[], future, [], 0, handling;
      new;
      Deliver();
    }

    function Queue(c: Channel): seq<Message>
      reads this
    {
      if c in queues then queues[c] else []
    }

    /** All that a channel holds and will receive. */
    ghost function Stream(c: Channel): seq<Message>
      reads this
    {
      Queue(c) + Coming(future, c)
    }

    /** What is due has been delivered. */
    predicate Settled()
      reads this
    {
      future == [] || future[0].at > now
    }

    method Deliver()
      modifies this`queues, this`future
      ensures Settled() && |future| <= |old(future)|
      ensures forall c :: Stream(c) == old(Stream(c)) && old(Queue(c)) <= Queue(c)
      ensures old(future) != [] && old(future)[0].at <= now ==> |future| < |old(future)|
    {
      while future != [] && future[0].at <= now
        invariant |future| <= |old(future)|
        invariant forall c :: Stream(c) == old(Stream(c)) && old(Queue(c)) <= Queue(c)
        invariant future == old(future) || |future| < |old(future)|
        decreases |future|
      {
        var a := future[0];
        forall c
          ensures Coming(future, c) ==
                  if a.to == c then [a.msg] + Coming(future[1..], c) else Coming(future[1..], c)
        {
          ComingHead(future, c);
        }
        Associative(Queue(a.to), [a.msg], Coming(future[1..], a.to));
        hide Coming;
        queues := queues[a.to := Queue(a.to) + [a.msg]];
        future := future[1..];
      }
    }

    /** InboundPending of each channel in turn. */
    method FirstPending(list: seq<Channel>) returns (i: nat)
      ensures i <= |list| && (i < |list| ==> Queue(list[i]) != []) && forall j | 0 <= j < i :: Queue(list[j]) == []
    {
      i := 0;
      while i < |list| && Queue(list[i]) == []
        invariant i <= |list| && forall j | 0 <= j < i :: Queue(list[j]) == []
      {
        i := i + 1;
      }
    }

    method Read(c: Channel) returns (event: Message)
      requires Queue(c) != []
      modifies this`queues
      ensures old(Queue(c)) == [event] + Queue(c) && forall d | d != c :: Queue(d) == old(Queue(d))
      ensures old(Stream(c)) == [event] + Stream(c) && forall d | d != c :: Stream(d) == old(Stream(d))
    {
      hide Coming;
      HeadFirst(queues[c], Coming(future, c));
      event := queues[c][0];
      queues := queues[c := queues[c][1..]];
    }

    /** Alternative over the channels and, last, a timeout: sleeps until one of them is ready. */
    method PriSelect(list: seq<Channel>, timeout: nat) returns (i: nat)
      requires Settled()
      modifies this`now, this`queues, this`future, this`waited
      ensures Settled() && forall c :: Stream(c) == old(Stream(c))
      ensures i <= |list| && (i < |list| ==> Queue(list[i]) != []) && forall j | 0 <= j < i :: Queue(list[j]) == []
      ensures old(now) <= now <= old(now) + timeout && waited == old(waited) + (now - old(now))
      ensures i == |list| ==> now == old(now) + timeout
      ensures (exists c | c in list :: old(Queue(c)) != []) ==> now == old(now) && queues == old(queues)
    {
      hide Coming;
      var start := now;
      i := FirstPending(list);
      while i == |list| && future != [] && future[0].at <= start + timeout
        invariant Settled() && forall c :: Stream(c) == old(Stream(c))
        invariant i <= |list| && (i < |list| ==> Queue(list[i]) != []) && forall j | 0 <= j < i :: Queue(list[j]) == []
        invariant old(now) <= now <= old(now) + timeout && waited == old(waited)
        invariant (exists c | c in list :: old(Queue(c)) != []) ==>
                    i < |list| && now == old(now) && queues == old(queues)
        decreases |future|
      {
        now := future[0].at;
        Deliver();
        i := FirstPending(list);
      }
      if i == |list| {
        now := start + timeout;
      }
      waited := waited + (now - start);
    }

    /** Reads from the first channel in the list that has a message, if need be after waiting for one. */
    method SelectFromChannels(list: seq<Channel>, timeout: nat)
      returns (res: ApiErrorCode, index: nat, ghost event: seq<Message>, msg: Message)
      requires Settled()
      modifies this`now, this`queues, this`future, this`waited
      ensures Settled()
      ensures res.API_FAILURE? <==> |list| == 0 || |list| > MAX_NUM_OF_CHANNELS_IN_SELECT
      ensures res.API_FAILURE? || res.API_SUCCESS? || res.API_TIMEOUT?
      ensures old(now) <= now <= old(now) + timeout && waited == old(waited) + (now - old(now))
      ensures res.API_SUCCESS? ==>
                index < |list| && event == [msg] && old(Stream(list[index])) == event + Stream(list[index])
      ensures res.API_SUCCESS? ==> forall j | 0 <= j < index :: Queue(list[j]) == [] && list[j] != list[index]
      ensures res.API_SUCCESS? && (exists c | c in list :: old(Queue(c)) != []) ==>
                && now == old(now) && old(Queue(list[index])) != []
                && forall j | 0 <= j < index :: old(Queue(list[j])) == []
      ensures res.API_TIMEOUT? ==> now == old(now) + timeout && forall c | c in list :: Queue(c) == []
      ensures !res.API_SUCCESS? ==> event == []
      ensures forall c | !res.API_SUCCESS? || c != list[index] :: Stream(c) == old(Stream(c))
    {
      hide Coming;
      event, index := [], 0;
      msg := Message(Ping, 0, 0);
      var count := |list|;
      if count == 0 || count > MAX_NUM_OF_CHANNELS_IN_SELECT {
        return API_FAILURE, index, event, msg;
      }
      var i := FirstPending(list);
      if i == count {
        i := PriSelect(list, timeout);
        if i == count {
          return API_TIMEOUT, index, event, msg;
        }
      }
      index := i;
      msg := Read(list[index]);
      event := [msg];
      res := API_SUCCESS;
    }

    /** A ping is answered; anything else is not handled. */
    method HandleOOBMessage(msg: Message) returns (handled: bool)
      requires Settled()
      modifies this`sent, this`now, this`queues, this`future
      ensures Settled() && handled == msg.body.Ping? && forall c :: Stream(c) == old(Stream(c))
      ensures sent == old(sent) + if handled then [Pong(msg.source, msg.txn)] else []
      ensures now == old(now) + handling
    {
      handled := msg.body.Ping?;
      if handled {
        sent := sent + [Pong(msg.source, msg.txn)];
      }
      now := now + handling;
      Deliver();
    }

    /** The time it takes to handle 'n' messages. */
    function Handling(n: nat): nat {
      n * handling
    }

    lemma OneMoreHandled(n: nat)
      ensures Handling(n + 1) == Handling(n) + handling && Handling(0) == 0
    {
    }

    /** Returns a message of one of the handles, answering the pings that come in meanwhile. */
    method WaitForTxnResponse(inbound: Channel, handles: seq<Channel>, timeout: int)
      returns (res: ApiErrorCode, index: int, response: Message, ghost pings: seq<Message>)
      requires Settled()
      modifies this
      ensures Settled()
      ensures res.API_WRONG_PARAMETER? <==> timeout < 0
      ensures res.API_FAILURE? <==> timeout >= 0 && |handles| + 1 > MAX_NUM_OF_CHANNELS_IN_SELECT
      ensures (forall p | p in pings :: p.body.Ping?) && sent == old(sent) + Pongs(pings)
      ensures old(Stream(inbound)) == pings + (if res.API_UNKNOWN_RESPONSE? then [response] else []) + Stream(inbound)
      ensures res.API_UNKNOWN_RESPONSE? ==> !response.body.Ping?
      ensures res.API_SUCCESS? ==>
                0 <= index < |handles| && handles[index] != inbound
                && old(Stream(handles[index])) == [response] + Stream(handles[index])
      ensures forall c | c != inbound && !(res.API_SUCCESS? && c == handles[index]) :: Stream(c) == old(Stream(c))
      ensures timeout >= 0 ==> waited <= old(waited) + timeout
      ensures now == old(now) + (waited - old(waited)) + Handling(|pings| + if res.API_UNKNOWN_RESPONSE? then 1 else 0)
      ensures res.API_TIMEOUT? ==>
                now >= old(now) + timeout && Queue(inbound) == [] && forall c | c in handles :: Queue(c) == []
    {
      hide Stream, Queue, Pongs, Settled, Handling;
      OneMoreHandled(0);
      pings, index := [], -1;
      response := Message(Ping, 0, 0);
      var list := [inbound] + handles;
      var timeLeftToWaitMs := timeout;
      NoPongs(Stream(inbound));
      if timeLeftToWaitMs < 0 {
        return API_WRONG_PARAMETER, index, response, pings;
      }
      while timeLeftToWaitMs >= 0
        invariant timeLeftToWaitMs >= 0 && Settled()
        invariant (forall p | p in pings :: p.body.Ping?) && sent == old(sent) + Pongs(pings)
        invariant pings != [] ==> |list| <= MAX_NUM_OF_CHANNELS_IN_SELECT
        invariant old(Stream(inbound)) == pings + Stream(inbound)
        invariant forall c | c != inbound :: Stream(c) == old(Stream(c))
        invariant waited + timeLeftToWaitMs <= old(waited) + timeout
        invariant now + timeLeftToWaitMs >= old(now) + timeout
        invariant now == old(now) + (waited - old(waited)) + Handling(|pings|)
        decreases |Stream(inbound)|
      {
        var start := now;
        ghost var before := Stream(inbound);
        var errCode, interrupted, event, msg := SelectFromChannels(list, timeLeftToWaitMs);
        if !errCode.API_SUCCESS? {
          assert list[0] == inbound && forall c | c in handles :: c in list;
          return errCode, index, response, pings;
        }
        response := msg;
        OneMoreHandled(|pings|);
        Associative(pings, [msg], Stream(inbound));
        if interrupted == 0 {
          var handled := HandleOOBMessage(msg);
          if !handled {
            return API_UNKNOWN_RESPONSE, index, response, pings;
          }
          OneMorePong(pings, msg);
          pings := pings + [msg];
          var delta := now - start;
          timeLeftToWaitMs := timeLeftToWaitMs - delta;
          if timeLeftToWaitMs < 0 {
            timeLeftToWaitMs := 0;
          }
        } else {
          index := interrupted - 1;
          assert list[0] == inbound;
          return API_SUCCESS, index, response, pings;
        }
      }
      assert false;
    }
  }
}
