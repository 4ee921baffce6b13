/**
 Request and response transactions between processes (iw_core/LightweightProcess.cpp). The waiting side
 never looks at transaction ids; what comes back is right because every transaction listens on a handle
 of its own. A request is a shared object: the client fills it in field by field, also if it has sent it
 before, and a server copies it field by field into its answer, without a lock between the two.
 */
module Transactions {
  import opened Basics

  type HandleId = int
  type Object = nat
  type Name = nat
  type Copy = nat

  const IW_UNDEFINED := -1

  /** What SendMessage and the answering side read of a request object. */
  datatype Request = Request(source: HandleId, txn: int, ipc: HandleId)

  /** 'about' is the transaction whose request made the server answer; no field of the message says so. */
  datatype Response = Response(dest: HandleId, txn: int, about: Name)

  datatype Status = Begun | SourceSet | Filled | Waiting | Unsent | GaveUp | Returned(response: Response)

  /** One call of DoRequestResponseTransaction. It is 'released' once no server holds its request any
      longer, and has 'left' once its guard has unregistered the handle. */
  datatype Transaction =
    Transaction(request: Object, handle: HandleId, txn: int, status: Status, released: bool, left: bool)

  /** One call of SendResponse, by a server that holds the request of 'about'. */
  datatype Answer =
    | Reading(about: Name, txn: int)
    | Ready(about: Name, txn: int, dest: HandleId, ipc: HandleId)
    | Sent

  /** 'channels' are the registered transaction handles, 'processes' all other registered handles.
      'mixed' are the transactions that have had an object in use at the same time as another. */
  datatype State = State(
    nextUid: HandleId,
    nextTxn: int,
    processes: set<HandleId>,
    channels: map<HandleId, seq<Response>>,
    requests: map<Object, Request>,
    transactions: map<Name, Transaction>,
    answers: map<Copy, Answer>,
    mixed: set<Name>)

  datatype Action =
    | NewUid
    | NewTxnId
    | Spawn
    | Exit(p: HandleId)
    | NewRequest(o: Object, source: HandleId, ipc: HandleId)
    // DoRequestResponseTransaction
    | Begin(t: Name, o: Object)
    | SetSource(t: Name)
    | SetTxn(t: Name)
    | Post(t: Name)
    | SendFails(t: Name)
    | Receive(t: Name)
    | GiveUp(t: Name)
    | Leave(t: Name)
    // servers
    | ReadTxn(k: Copy, t: Name)
    | ReadSource(k: Copy)
    | Deliver(k: Copy)
    | Release(t: Name)

  /** UIDOwner counts from 6000, transaction ids from 0. */
  const INIT := State(6000, 0, {}, map[], map[], map[], map[], {})

  predicate Has(s: State, t: Name, status: Status) {
    t in s.transactions && s.transactions[t].status == status
  }

  /** A server has, or has had, the request of the transaction. */
  predicate Posted(x: Transaction) {
    x.status.Waiting? || x.status.GaveUp? || x.status.Returned?
  }

  /** Handles of transactions are known to nobody but those who hold their request; interfaces to other
      hosts are processes. */
  predicate Enabled(s: State, a: Action) {
    match a
    case Exit(p) => p in s.processes
    case NewRequest(o, source, ipc) =>
      && o !in s.requests
      && (source == IW_UNDEFINED || source in s.processes) && (ipc == IW_UNDEFINED || ipc in s.processes)
    case Begin(t, o) => t !in s.transactions && o in s.requests
    case SetSource(t) => Has(s, t, Begun) && s.transactions[t].request in s.requests
    case SetTxn(t) => Has(s, t, SourceSet) && s.transactions[t].request in s.requests
    case Post(t) => Has(s, t, Filled)
    case SendFails(t) => Has(s, t, Filled)
    case Receive(t) =>
      && Has(s, t, Waiting)
      && s.transactions[t].handle in s.channels && s.channels[s.transactions[t].handle] != []
    case GiveUp(t) => Has(s, t, Waiting)
    case Leave(t) =>
      && t in s.transactions && !s.transactions[t].left
      && (s.transactions[t].status.Unsent? || s.transactions[t].status.GaveUp? || s.transactions[t].status.Returned?)
    case ReadTxn(k, t) =>
      && k !in s.answers && t in s.transactions
      && Posted(s.transactions[t]) && !s.transactions[t].released && s.transactions[t].request in s.requests
    case ReadSource(k) =>
      && k in s.answers && s.answers[k].Reading? && s.answers[k].about in s.transactions
      && s.transactions[s.answers[k].about].request in s.requests
    case Deliver(k) => k in s.answers && s.answers[k].Ready?
    case Release(t) =>
      && t in s.transactions && Posted(s.transactions[t])
      && (forall k | k in s.answers && s.answers[k].Reading? :: s.answers[k].about != t)
    case _ => true
  }

  /** A transaction has filled, or is to fill, the object and no server has released it yet. */
  predicate InUse(s: State, o: Object) {
    exists u | u in s.transactions :: s.transactions[u].request == o && !s.transactions[u].released
  }

  function Users(s: State, o: Object): set<Name> {
    set u | u in s.transactions && s.transactions[u].request == o && !s.transactions[u].released
  }

  function Put(s: State, t: Name, x: Transaction): State {
    s.(transactions := s.transactions[t := x])
  }

  /** SendMessage of the response: by the interface the request came from if that is still registered,
      else to its destination; an unknown destination drops it. */
  function Route(s: State, k: Answer): State
    requires k.Ready?
  {
    if k.ipc != IW_UNDEFINED && k.ipc in s.processes then s
    else if k.dest in s.channels then
      s.(channels := s.channels[k.dest := s.channels[k.dest] + [Response(k.dest, k.txn, k.about)]])
    else s
  }

  /** One step; an action that is not enabled changes nothing. */
  function Next(s: State, a: Action): State {
    if !Enabled(s, a) then s
    else
      match a
      case NewUid => s.(nextUid := s.nextUid + 1)
      case NewTxnId => s.(nextTxn := s.nextTxn + 1)
      case Spawn => s.(processes := s.processes + {s.nextUid}, nextUid := s.nextUid + 1)
      case Exit(p) => s.(processes := s.processes - {p})
      case NewRequest(o, source, ipc) =>
        s.(requests := s.requests[o := Request(source, s.nextTxn, ipc)], nextTxn := s.nextTxn + 1)
      // DECLARE_NAMED_HANDLE, RegistrationGuard
      case Begin(t, o) =>
        s.(nextUid := s.nextUid + 1,
           channels := s.channels[s.nextUid := []],
           transactions := s.transactions[t := Transaction(o, s.nextUid, IW_UNDEFINED, Begun, false, false)],
           mixed := if InUse(s, o) then s.mixed + {t} + Users(s, o) else s.mixed)
      case SetSource(t) =>
        var x := s.transactions[t];
        Put(s, t, x.(status := SourceSet))
        .(requests := s.requests[x.request := s.requests[x.request].(source := x.handle)])
      case SetTxn(t) =>
        var x := s.transactions[t];
        Put(s, t, x.(status := Filled, txn := s.nextTxn))
        .(requests := s.requests[x.request := s.requests[x.request].(txn := s.nextTxn)], nextTxn := s.nextTxn + 1)
      case Post(t) => Put(s, t, s.transactions[t].(status := Waiting))
      case SendFails(t) => Put(s, t, s.transactions[t].(status := Unsent, released := true))
      case Receive(t) =>
        var h := s.transactions[t].handle;
        Put(s, t, s.transactions[t].(status := Returned(s.channels[h][0])))
        .(channels := s.channels[h := s.channels[h][1..]])
      case GiveUp(t) => Put(s, t, s.transactions[t].(status := GaveUp))
      // ~RegistrationGuard
      case Leave(t) =>
        Put(s, t, s.transactions[t].(left := true)).(channels := s.channels - {s.transactions[t].handle})
      // transaction_id = request->transaction_id
      case ReadTxn(k, t) => s.(answers := s.answers[k := Reading(t, s.requests[s.transactions[t].request].txn)])
      // dest = request->source, and the interface, which no transaction changes
      case ReadSource(k) =>
        var q := s.requests[s.transactions[s.answers[k].about].request];
        s.(answers := s.answers[k := Ready(s.answers[k].about, s.answers[k].txn, q.source, q.ipc)])
      case Deliver(k) => Route(s, s.answers[k]).(answers := s.answers[k := Sent])
      case Release(t) => Put(s, t, s.transactions[t].(released := true))
  }

  function Run(s: State, actions: seq<Action>): State
    decreases |actions|
  {
    if actions == [] then s else Run(Next(s, actions[0]), actions[1..])
  }

  // ----- what every step keeps -----

  ghost predicate Fresh(s: State) {
    && s.nextUid >= 6000 && s.nextTxn >= 0
    && (forall t | t in s.transactions ::
          0 <= s.transactions[t].handle < s.nextUid && s.transactions[t].txn < s.nextTxn)
    && (forall p | p in s.processes :: p < s.nextUid)
    && (forall h | h in s.channels :: h < s.nextUid)
    && (forall o | o in s.requests :: s.requests[o].source < s.nextUid && s.requests[o].txn < s.nextTxn)
    && (forall k | k in s.answers && s.answers[k].Ready? :: s.answers[k].dest < s.nextUid)
  }

  /** No two transactions share a handle; processes have other handles. */
  ghost predicate Apart(s: State) {
    && (forall t, u | t in s.transactions && u in s.transactions && t != u ::
          s.transactions[t].handle != s.transactions[u].handle)
    && (forall t | t in s.transactions :: s.transactions[t].handle !in s.processes)
  }

  /** A handle is registered only during its transaction. */
  ghost predicate Registered(s: State) {
    forall t | t in s.transactions :: s.transactions[t].handle in s.channels <==> !s.transactions[t].left
  }

  /** A transaction leaves only when it is through, and servers have released only what cannot come to
      them any more. */
  predicate Phased(x: Transaction) {
    && (x.left ==> x.status.Unsent? || x.status.GaveUp? || x.status.Returned?)
    && (x.status.Unsent? ==> x.released)
    && (x.released ==> x.status.Unsent? || Posted(x))
  }

  ghost predicate AllPhased(s: State) {
    forall t | t in s.transactions :: Phased(s.transactions[t])
  }

  ghost predicate Known(s: State) {
    && (forall t | t in s.transactions :: s.transactions[t].request in s.requests)
    && s.mixed <= s.transactions.Keys
    && (forall k | k in s.answers && !s.answers[k].Sent? :: s.answers[k].about in s.transactions)
  }

  /** The handle of a transaction stands in no request but its own. */
  ghost predicate Private(s: State) {
    forall t, o | t in s.transactions && o in s.requests && s.requests[o].source == s.transactions[t].handle ::
      s.transactions[t].request == o
  }

  /** While the handle of a transaction that was never mixed up stands in its request, no other one that
      uses the request has written its own. */
  ghost predicate Latest(s: State) {
    forall t, u | t in s.transactions && u in s.transactions && t != u && t !in s.mixed ::
      && s.transactions[t].request == s.transactions[u].request
      && s.transactions[t].request in s.requests
      && s.requests[s.transactions[t].request].source == s.transactions[t].handle
      && !s.transactions[u].released ==>
        s.transactions[u].status.Begun?
  }

  /** No answer to another transaction goes to the handle of one that was never mixed up. */
  ghost predicate AnswersPrivate(s: State) {
    forall t, k | t in s.transactions && t !in s.mixed && k in s.answers && s.answers[k].Ready? ::
      s.answers[k].dest == s.transactions[t].handle ==> s.answers[k].about == t
  }

  /** An object is in use by one transaction, or by such as are mixed up. */
  ghost predicate OneUser(s: State) {
    forall t, u | t in s.transactions && u in s.transactions && t != u ::
      s.transactions[t].request == s.transactions[u].request ==>
        s.transactions[t].released || s.transactions[u].released || t in s.mixed
  }

  /** The request holds what the transaction has written so far. */
  predicate Written(x: Transaction, q: Request) {
    && (!x.status.Begun? ==> q.source == x.handle)
    && (!x.status.Begun? && !x.status.SourceSet? ==> q.txn == x.txn)
  }

  /** A transaction that is not mixed up finds its own values in its request. */
  ghost predicate UserWrote(s: State) {
    forall t | t in s.transactions && !s.transactions[t].released && t !in s.mixed ::
      s.transactions[t].request in s.requests && Written(s.transactions[t], s.requests[s.transactions[t].request])
  }

  /** The id of a posted transaction, if that is not mixed up. */
  ghost predicate Own(s: State, t: Name, txn: int) {
    && t in s.transactions && Posted(s.transactions[t])
    && (t !in s.mixed ==> txn == s.transactions[t].txn)
  }

  ghost predicate AnswersOwn(s: State) {
    forall k | k in s.answers && !s.answers[k].Sent? ::
      && Own(s, s.answers[k].about, s.answers[k].txn)
      && (s.answers[k].Reading? ==> !s.transactions[s.answers[k].about].released)
      && (s.answers[k].Ready? && s.answers[k].about !in s.mixed ==>
            s.answers[k].dest == s.transactions[s.answers[k].about].handle)
  }

  /** A response that lies in, or has come from, the channel of a handle. */
  ghost predicate Came(s: State, h: HandleId, r: Response) {
    && r.dest == h
    && Own(s, r.about, r.txn)
    && (r.about !in s.mixed ==> h == s.transactions[r.about].handle)
    && (forall t | t in s.transactions && s.transactions[t].handle == h && t !in s.mixed :: r.about == t)
  }

  ghost predicate ChannelsOwn(s: State) {
    forall h, i | h in s.channels && 0 <= i < |s.channels[h]| :: Came(s, h, s.channels[h][i])
  }

  ghost predicate ReturnsOwn(s: State) {
    forall t | t in s.transactions && s.transactions[t].status.Returned? ::
      Came(s, s.transactions[t].handle, s.transactions[t].status.response)
  }

  ghost predicate Inv(s: State) {
    && Fresh(s) && Apart(s) && Registered(s) && AllPhased(s) && Known(s) && Private(s)
    && Latest(s) && AnswersPrivate(s) && OneUser(s) && UserWrote(s) && AnswersOwn(s) && ChannelsOwn(s) && ReturnsOwn(s)
  }

  /** What has been posted stays as it was posted. */
  ghost predicate Grown(s: State, s': State) {
    && s.mixed <= s'.mixed
    && (forall t | t in s.transactions ::
          && t in s'.transactions
          && s'.transactions[t].handle == s.transactions[t].handle
          && s'.transactions[t].request == s.transactions[t].request
          && (Posted(s.transactions[t]) ==>
                Posted(s'.transactions[t]) && s'.transactions[t].txn == s.transactions[t].txn))
    && (forall t | t in s'.transactions && t !in s.transactions :: s'.transactions[t].handle == s.nextUid)
  }

  lemma NextGrown(s: State, a: Action)
    ensures Grown(s, Next(s, a))
  {
    hide InUse, Users;
  }

  lemma NextFresh(s: State, a: Action)
    requires Fresh(s)
    ensures Fresh(Next(s, a))
  {
    hide InUse, Users;
  }

  /** New transactions, handles and processes. */
  lemma NextTaken(s: State, a: Action)
    ensures forall t | t in Next(s, a).transactions && t !in s.transactions ::
              a.Begin? && a.t == t && Next(s, a).transactions[t].status.Begun?
    ensures Next(s, a).processes <= s.processes + if a.Spawn? then {s.nextUid} else {}
  {
    hide InUse, Users;
  }

  /** Sources are set by transactions alone. */
  lemma NextSources(s: State, a: Action)
    ensures forall o | o in Next(s, a).requests ::
              || (o in s.requests && Next(s, a).requests[o].source == s.requests[o].source)
              || (a.SetSource? && Has(s, a.t, Begun) && s.transactions[a.t].request == o
                  && Next(s, a).requests[o].source == s.transactions[a.t].handle)
              || (a.NewRequest? && o !in s.requests
                  && (Next(s, a).requests[o].source == IW_UNDEFINED || Next(s, a).requests[o].source in s.processes))
    ensures forall o | o in s.requests :: o in Next(s, a).requests
  {
    hide InUse, Users;
  }

  lemma NextStages(s: State, a: Action)
    ensures forall t | t in s.transactions ::
              && t in Next(s, a).transactions
              && (s.transactions[t].released ==> Next(s, a).transactions[t].released)
              && (s.transactions[t].status.Begun? ==>
                    || Next(s, a).transactions[t].status.Begun?
                    || (a == SetSource(t) && s.transactions[t].request in s.requests
                        && Next(s, a).requests[s.transactions[t].request].source == s.transactions[t].handle))
  {
    hide InUse, Users;
  }

  lemma NextApart(s: State, a: Action)
    requires Fresh(s) && Apart(s)
    ensures Apart(Next(s, a))
  {
    hide Next;
    NextGrown(s, a);
    NextTaken(s, a);
  }

  lemma NextRegistered(s: State, a: Action)
    requires Fresh(s) && Apart(s) && Registered(s)
    ensures Registered(Next(s, a))
  {
    hide InUse, Users;
  }

  lemma NextPhased(s: State, a: Action)
    requires AllPhased(s)
    ensures AllPhased(Next(s, a))
  {
    hide InUse, Users;
  }

  lemma NextKnown(s: State, a: Action)
    requires Known(s)
    ensures Known(Next(s, a))
  {
    hide InUse;
  }

  lemma NextPrivate(s: State, a: Action)
    requires Fresh(s) && Apart(s) && Private(s)
    ensures Private(Next(s, a))
  {
    hide Next;
    NextGrown(s, a);
    NextSources(s, a);
  }

  lemma NextLatest(s: State, a: Action)
    requires Fresh(s) && Apart(s) && Private(s) && OneUser(s) && AllPhased(s) && Latest(s)
    ensures Latest(Next(s, a))
  {
    hide Next;
    NextGrown(s, a);
    NextTaken(s, a);
    NextSources(s, a);
    NextStages(s, a);
  }

  /** An answer gets its destination when it reads the source of the request. */
  lemma NextReady(s: State, a: Action)
    ensures forall k | k in Next(s, a).answers && Next(s, a).answers[k].Ready? ::
              && k in s.answers
              && (|| s.answers[k] == Next(s, a).answers[k]
                  || (&& s.answers[k].Reading? && s.answers[k].about == Next(s, a).answers[k].about
                      && s.answers[k].about in s.transactions
                      && s.transactions[s.answers[k].about].request in s.requests
                      && Next(s, a).answers[k].dest
                           == s.requests[s.transactions[s.answers[k].about].request].source))
  {
    hide InUse, Users;
  }

  lemma NextAnswersPrivate(s: State, a: Action)
    requires Fresh(s) && Known(s) && Private(s) && Latest(s) && AnswersOwn(s) && AnswersPrivate(s)
    ensures AnswersPrivate(Next(s, a))
  {
    hide Next;
    NextGrown(s, a);
    NextReady(s, a);
  }

  lemma NextOneUser(s: State, a: Action)
    requires OneUser(s)
    ensures OneUser(Next(s, a))
  {
  }

  lemma NextWrote(s: State, a: Action)
    requires AllPhased(s) && Known(s) && OneUser(s) && UserWrote(s)
    ensures UserWrote(Next(s, a))
  {
    hide InUse, Users;
  }

  lemma NextAnswers(s: State, a: Action)
    requires AllPhased(s) && UserWrote(s) && AnswersOwn(s)
    ensures AnswersOwn(Next(s, a))
  {
    hide InUse, Users;
  }

  lemma CameStays(s: State, s': State, h: HandleId, r: Response)
    requires Grown(s, s') && Came(s, h, r) && h < s.nextUid
    ensures Came(s', h, r)
  {
  }

  lemma ChannelsFrom(s: State, a: Action, h: HandleId, i: nat)
    requires h in Next(s, a).channels && i < |Next(s, a).channels[h]|
    ensures var r := Next(s, a).channels[h][i];
            || (h in s.channels && r in s.channels[h])
            || (a.Deliver? && Enabled(s, a) && s.answers[a.k].dest == h && h in s.channels
                && r == Response(h, s.answers[a.k].txn, s.answers[a.k].about))
  {
    hide InUse, Users;
  }

  lemma ReturnsFrom(s: State, a: Action, t: Name)
    requires t in Next(s, a).transactions && Next(s, a).transactions[t].status.Returned?
    ensures var x := Next(s, a).transactions[t];
            && t in s.transactions && s.transactions[t].handle == x.handle
            && (|| s.transactions[t].status == x.status
                || (x.handle in s.channels && x.status.response in s.channels[x.handle]))
  {
    hide InUse, Users;
  }

  lemma NextChannels(s: State, a: Action)
    requires Fresh(s) && AnswersPrivate(s) && AnswersOwn(s) && ChannelsOwn(s)
    ensures ChannelsOwn(Next(s, a))
  {
    var s' := Next(s, a);
    forall h, i | h in s'.channels && 0 <= i < |s'.channels[h]| ensures Came(s', h, s'.channels[h][i]) {
      hide Next, Grown, Came, Own;
      var r := s'.channels[h][i];
      NextGrown(s, a);
      ChannelsFrom(s, a, h, i);
      if !(h in s.channels && r in s.channels[h]) {
        DeliverCame(s, a.k);
      }
      CameStays(s, s', h, r);
    }
  }

  lemma DeliverCame(s: State, k: Copy)
    requires AnswersPrivate(s) && AnswersOwn(s) && k in s.answers && s.answers[k].Ready?
    ensures Came(s, s.answers[k].dest, Response(s.answers[k].dest, s.answers[k].txn, s.answers[k].about))
  {
  }

  lemma NextReturns(s: State, a: Action)
    requires Fresh(s) && ChannelsOwn(s) && ReturnsOwn(s)
    ensures ReturnsOwn(Next(s, a))
  {
    var s' := Next(s, a);
    forall t | t in s'.transactions && s'.transactions[t].status.Returned?
      ensures Came(s', s'.transactions[t].handle, s'.transactions[t].status.response)
    {
      hide Next, Grown, Came;
      NextGrown(s, a);
      ReturnsFrom(s, a, t);
      CameStays(s, s', s'.transactions[t].handle, s'.transactions[t].status.response);
    }
  }

  lemma NextKeeps(s: State, a: Action)
    requires Inv(s)
    ensures Inv(Next(s, a))
  {
    hide Fresh, Apart, Registered, AllPhased, Known, Private, AnswersPrivate, OneUser, UserWrote;
    hide Latest, AnswersOwn, ChannelsOwn, ReturnsOwn, Next;
    NextFresh(s, a);
    NextApart(s, a);
    NextRegistered(s, a);
    NextPhased(s, a);
    NextKnown(s, a);
    NextPrivate(s, a);
    NextLatest(s, a);
    NextAnswersPrivate(s, a);
    NextOneUser(s, a);
    NextWrote(s, a);
    NextAnswers(s, a);
    NextChannels(s, a);
    NextReturns(s, a);
  }

  lemma {:induction false} RunKeeps(s: State, actions: seq<Action>)
    requires Inv(s)
    ensures Inv(Run(s, actions))
    decreases |actions|
  {
    if actions != [] {
      hide Inv, Next;
      NextKeeps(s, actions[0]);
      RunKeeps(Next(s, actions[0]), actions[1..]);
    }
  }

  // ----- over every run -----

  /** A transaction that was never mixed up returns, if anything, the answer to itself: made for its own
      request, with its own handle and its own id. */
  lemma ResponseIsOwn(actions: seq<Action>, t: Name)
    requires var s := Run(INIT, actions);
             && t in s.transactions && s.transactions[t].status.Returned?
             && t !in s.mixed
    ensures var x := Run(INIT, actions).transactions[t];
            x.status.response == Response(x.handle, x.txn, t)
  {
    hide Run;
    RunKeeps(INIT, actions);
  }

  /** The answer to one transaction is in the hands of no other and waits in the channel of no other. */
  lemma NoOtherGetsIt(actions: seq<Action>, t: Name, u: Name)
    requires var s := Run(INIT, actions); t in s.transactions && u in s.transactions && t != u
    requires t !in Run(INIT, actions).mixed
    ensures var s := Run(INIT, actions);
            && (s.transactions[u].status.Returned? ==> s.transactions[u].status.response.about != t)
            && (forall i | s.transactions[u].handle in s.channels && 0 <= i < |s.channels[s.transactions[u].handle]| ::
                  s.channels[s.transactions[u].handle][i].about != t)
  {
    hide Run;
    RunKeeps(INIT, actions);
  }

  lemma DeliverLands(s: State, k: Copy, x: Transaction)
    requires k in s.answers && s.answers[k].Ready? && s.answers[k].dest == x.handle && s.answers[k].txn == x.txn
    requires x.handle in s.channels <==> !x.left
    ensures var s', ipc := Next(s, Deliver(k)), s.answers[k].ipc;
            && (!x.left && (ipc == IW_UNDEFINED || ipc !in s.processes) <==> s'.channels != s.channels)
            && (s'.channels != s.channels ==>
                  && x.handle in s.channels
                  && s'.channels == s.channels[x.handle := s.channels[x.handle]
                                                           + [Response(x.handle, x.txn, s.answers[k].about)]])
  {
    var sent := [Response(x.handle, x.txn, s.answers[k].about)];
    if x.handle in s.channels {
      assert s.channels[x.handle := s.channels[x.handle] + sent][x.handle] != s.channels[x.handle];
    }
  }

  /** An answer reaches the transaction it was made for if and only if that has not left and the request
      did not come through an interface that is still there; otherwise it reaches nobody. */
  lemma AnswerArrives(actions: seq<Action>, k: Copy)
    requires var s := Run(INIT, actions);
             && k in s.answers && s.answers[k].Ready?
             && s.answers[k].about in s.transactions && s.answers[k].about !in s.mixed
    ensures var s, s' := Run(INIT, actions), Next(Run(INIT, actions), Deliver(k));
            var x, ipc := s.transactions[s.answers[k].about], s.answers[k].ipc;
            && (!x.left && (ipc == IW_UNDEFINED || ipc !in s.processes) <==> s'.channels != s.channels)
            && (s'.channels != s.channels ==>
                  && x.handle in s.channels
                  && s'.channels == s.channels[x.handle := s.channels[x.handle]
                                                           + [Response(x.handle, x.txn, s.answers[k].about)]])
  {
    hide Run, Next;
    RunKeeps(INIT, actions);
    var s := Run(INIT, actions);
    DeliverLands(s, k, s.transactions[s.answers[k].about]);
  }

  /** The handles of transactions that have left are never registered again. */
  lemma {:induction false} LeftForEver(s: State, t: Name, actions: seq<Action>)
    requires Inv(s) && t in s.transactions && s.transactions[t].left
    ensures var s' := Run(s, actions);
            && t in s'.transactions && s'.transactions[t].left
            && s'.transactions[t].handle == s.transactions[t].handle && s.transactions[t].handle !in s'.channels
    decreases |actions|
  {
    if actions == [] {
      assert Registered(s);
    } else {
      NextKeeps(s, actions[0]);
      LeftStays(s, t, actions[0]);
      hide Inv, Next;
      LeftForEver(Next(s, actions[0]), t, actions[1..]);
    }
  }

  lemma LeftStays(s: State, t: Name, a: Action)
    requires t in s.transactions && s.transactions[t].left
    ensures t in Next(s, a).transactions && Next(s, a).transactions[t].left
    ensures Next(s, a).transactions[t].handle == s.transactions[t].handle
  {
    hide InUse, Users;
  }

  // ----- an object taken while in use -----

  /** No other transaction takes the object. */
  predicate LeavesAlone(actions: seq<Action>, o: Object) {
    forall a | a in actions :: !(a.Begin? && a.o == o)
  }

  /** The transaction has been given the answer to another one, with another id. */
  predicate MixedUp(s: State, t: Name) {
    && t in s.transactions && s.transactions[t].status.Returned?
    && s.transactions[t].status.response.about != t
    && s.transactions[t].status.response.txn != s.transactions[t].txn
  }

  lemma {:induction false} StaysClean(s: State, t: Name, actions: seq<Action>)
    requires t in s.transactions && t !in s.mixed
    requires LeavesAlone(actions, s.transactions[t].request)
    ensures var s' := Run(s, actions);
            && t in s'.transactions && s'.transactions[t].request == s.transactions[t].request
            && t !in s'.mixed
    decreases |actions|
  {
    if actions != [] {
      var s' := Next(s, actions[0]);
      NextGrown(s, actions[0]);
      assert actions[0] in actions && t !in s'.mixed;
      assert forall a | a in actions[1..] :: a in actions;
      hide Next;
      StaysClean(s', t, actions[1..]);
    }
  }

  /** Every transaction to come takes an object that none has taken before. */
  ghost predicate OneEach(s: State, actions: seq<Action>) {
    && (forall i, t | 0 <= i < |actions| && actions[i].Begin? && t in s.transactions ::
          s.transactions[t].request != actions[i].o)
    && (forall i, j | 0 <= i < j < |actions| && actions[i].Begin? && actions[j].Begin? :: actions[i].o != actions[j].o)
  }

  lemma TakesOnly(s: State, a: Action)
    ensures forall t | t in Next(s, a).transactions ::
              || (t in s.transactions && Next(s, a).transactions[t].request == s.transactions[t].request)
              || (a.Begin? && Next(s, a).transactions[t].request == a.o)
    ensures (a.Begin? && InUse(s, a.o)) || Next(s, a).mixed == s.mixed
  {
    hide InUse, Users;
  }

  /** Transactions that take one object each are never mixed up. */
  lemma {:induction false} OneEachMixesNone(s: State, actions: seq<Action>)
    requires OneEach(s, actions)
    ensures Run(s, actions).mixed == s.mixed
    decreases |actions|
  {
    if actions != [] {
      hide Next;
      TakesOnly(s, actions[0]);
      OneEachMixesNone(Next(s, actions[0]), actions[1..]);
    }
  }

  /** A number above all in the set. */
  lemma {:induction false} Above(s: set<Copy>) returns (k: Copy)
    ensures forall x | x in s :: x < k
    decreases s
  {
    k := 0;
    if s != {} {
      var x := Pick(s);
      var j := Above(s - {x});
      k := if x < j then j else x + 1;
      assert forall y | y in s :: y == x || y in s - {x};
    }
  }

  lemma Front(s: State, a: Action, rest: seq<Action>, o: Object)
    requires LeavesAlone(rest, o) && !a.Begin?
    ensures Run(s, [a] + rest) == Run(Next(s, a), rest) && LeavesAlone([a] + rest, o)
  {
  }

  /** 't' has taken the request of 'u', which no server has released; no interface is in the way. */
  predicate Taken(s: State, t: Name, u: Name, status: Status) {
    && Has(s, t, status) && t != u && u in s.transactions
    && s.transactions[u].request == s.transactions[t].request
    && s.transactions[t].request in s.requests
    && s.transactions[t].handle in s.channels && s.channels[s.transactions[t].handle] == []
    && var q := s.requests[s.transactions[t].request];
    && q.txn < s.nextTxn && (q.ipc == IW_UNDEFINED || q.ipc !in s.processes)
  }

  /** The server has the old id and the new handle: it answers before it reads the new id. */
  lemma WrongAnswer(s: State, t: Name, u: Name, k: Copy) returns (run: seq<Action>)
    requires Taken(s, t, u, SourceSet)
    requires k in s.answers && s.answers[k].Ready? && s.answers[k].about == u && s.answers[k].txn < s.nextTxn
    requires s.answers[k].dest == s.transactions[t].handle
    requires s.answers[k].ipc == IW_UNDEFINED || s.answers[k].ipc !in s.processes
    ensures MixedUp(Run(s, run), t) && LeavesAlone(run, s.transactions[t].request)
  {
    hide InUse, Users;
    var o := s.transactions[t].request;
    var s1 := Next(s, SetTxn(t));
    var s2 := Next(s1, Post(t));
    var s3 := Next(s2, Deliver(k));
    var s4 := Next(s3, Receive(t));
    assert MixedUp(s4, t);
    hide Next, MixedUp;
    run := [];
    Front(s3, Receive(t), run, o);
    run := [Receive(t)] + run;
    Front(s2, Deliver(k), run, o);
    run := [Deliver(k)] + run;
    Front(s1, Post(t), run, o);
    run := [Post(t)] + run;
    Front(s, SetTxn(t), run, o);
    run := [SetTxn(t)] + run;
  }

  /** A server reads the id before, and the handle after, 't' writes its handle. */
  lemma TornRead(s: State, t: Name, u: Name, k: Copy) returns (run: seq<Action>)
    requires Taken(s, t, u, Begun) && k !in s.answers
    requires Posted(s.transactions[u]) && !s.transactions[u].released
    ensures MixedUp(Run(s, run), t) && LeavesAlone(run, s.transactions[t].request)
  {
    hide InUse, Users;
    var o := s.transactions[t].request;
    var s1 := Next(s, ReadTxn(k, u));
    var s2 := Next(s1, SetSource(t));
    var s3 := Next(s2, ReadSource(k));
    assert Taken(s3, t, u, SourceSet) && s3.transactions[t].request == o;
    assert s3.answers[k] == Ready(u, s.requests[o].txn, s.transactions[t].handle, s.requests[o].ipc);
    hide Next, MixedUp;
    run := WrongAnswer(s3, t, u, k);
    Front(s2, ReadSource(k), run, o);
    run := [ReadSource(k)] + run;
    Front(s1, SetSource(t), run, o);
    run := [SetSource(t)] + run;
    Front(s, ReadTxn(k, u), run, o);
    run := [ReadTxn(k, u)] + run;
  }

  /** 'u' writes and sends what it has not yet. */
  lemma OldPosted(s: State, t: Name, u: Name, k: Copy) returns (run: seq<Action>)
    requires Taken(s, t, u, Begun) && k !in s.answers
    requires !s.transactions[u].released && !s.transactions[u].status.Unsent?
    ensures MixedUp(Run(s, run), t) && LeavesAlone(run, s.transactions[t].request)
  {
    hide InUse, Users;
    var o := s.transactions[t].request;
    var s1 := Next(s, SetSource(u));
    var s2 := Next(s1, SetTxn(u));
    var s3 := Next(s2, Post(u));
    assert Taken(s1, t, u, Begun);
    assert Taken(s2, t, u, Begun);
    assert Taken(s3, t, u, Begun) && s3.transactions[t].request == o;
    assert Posted(s3.transactions[u]) && !s3.transactions[u].released;
    hide Next, MixedUp;
    run := TornRead(s3, t, u, k);
    Front(s2, Post(u), run, o);
    run := [Post(u)] + run;
    Front(s1, SetTxn(u), run, o);
    run := [SetTxn(u)] + run;
    Front(s, SetSource(u), run, o);
    run := [SetSource(u)] + run;
  }

  lemma TakesOver(s: State, t: Name, u: Name)
    requires Fresh(s) && t !in s.transactions && u in s.transactions && s.transactions[u].request in s.requests
    ensures var o := s.transactions[u].request;
            var s' := Next(Next(s, Begin(t, o)), Exit(s.requests[o].ipc));
            Taken(s', t, u, Begun) && s'.transactions[t].request == o && s'.transactions[u] == s.transactions[u]
            && s'.answers == s.answers
  {
    hide InUse, Users;
  }

  /** From any state in which an object is in use: another transaction that takes it can be given the
      answer to the one that uses it. */
  lemma RefillBreaks(s: State, t: Name, o: Object) returns (run: seq<Action>)
    requires Inv(s) && t !in s.transactions && o in s.requests && InUse(s, o)
    ensures LeavesAlone(run, o) && MixedUp(Run(Next(s, Begin(t, o)), run), t)
  {
    hide Next, MixedUp, Run, Taken;
    var u :| u in s.transactions && s.transactions[u].request == o && !s.transactions[u].released;
    assert Phased(s.transactions[u]);
    var k := Above(s.answers.Keys);
    var exit := Exit(s.requests[o].ipc);
    TakesOver(s, t, u);
    run := OldPosted(Next(Next(s, Begin(t, o)), exit), t, u, k);
    Front(Next(s, Begin(t, o)), exit, run, o);
    run := [exit] + run;
  }

  /** Taking an object is safe if and only if no other transaction has it in use: only then can the new
      transaction not be given the answer to another, whatever happens next. */
  lemma SafeUnlessInUse(s: State, t: Name, o: Object)
    requires Inv(s) && t !in s.transactions && o in s.requests
    ensures InUse(s, o) <==> exists run :: LeavesAlone(run, o) && MixedUp(Run(Next(s, Begin(t, o)), run), t)
  {
    var s0 := Next(s, Begin(t, o));
    if InUse(s, o) {
      var run := RefillBreaks(s, t, o);
    } else {
      forall run | LeavesAlone(run, o) ensures !MixedUp(Run(s0, run), t) {
        NextKeeps(s, Begin(t, o));
        StaysClean(s0, t, run);
        hide Next, Run;
        RunKeeps(s0, run);
        var s' := Run(s0, run);
        assert s'.transactions[t].status.Returned? ==>
            Came(s', s'.transactions[t].handle, s'.transactions[t].status.response);
      }
    }
  }
}
