/**
 The registrar of processes (iw_core/LocalProcessRegistrar.cpp): handles by their id, the service each
 of them offers, and who is to be told when one goes. Every method runs under '_instanceMutex'.
 */
module Registrar {
  import opened Basics

  type Handle = nat

  /** A shutdown event about 'handleId', sent to 'listener'. */
  datatype Event = Event(listener: Handle, handleId: int)

  datatype Op =
    | Register(id: int, handle: Handle, service: string)
    | Unregister(id: int)
    | AddListener(id: int, listener: Handle)

  const IW_UNDEFINED := -1

  // ----- what the calls should add up to -----

  /** The listeners of 'id' that events have gone to, in order. */
  function SentTo(events: seq<Event>, id: int): seq<Handle> {
    if events == [] then []
    else SentTo(events[..|events| - 1], id) +
         (if events[|events| - 1].handleId == id then [events[|events| - 1].listener] else [])
  }

  /** The listeners that have been added for 'id', in order. */
  function AddedTo(ops: seq<Op>, id: int): seq<Handle> {
    if ops == [] then []
    else
      AddedTo(ops[..|ops| - 1], id) +
      (match ops[|ops| - 1]
       case AddListener(i, listener) => if i == id then [listener] else []
       case _ => [])
  }

  /** The first registration of 'id' in 'ops'. */
  function FirstRegistration(ops: seq<Op>, id: int): Option<(Handle, string)> {
    if ops == [] then None
    else if ops[0].Register? && ops[0].id == id then Some((ops[0].handle, ops[0].service))
    else FirstRegistration(ops[1..], id)
  }

  function SinceUnregistered(ops: seq<Op>, id: int): seq<Op> {
    if ops == [] then []
    else if ops[|ops| - 1] == Unregister(id) then []
    else SinceUnregistered(ops[..|ops| - 1], id) + [ops[|ops| - 1]]
  }

  /** The registration in force: the first since the last unregistration; later ones are refused. */
  function InForce(ops: seq<Op>, id: int): Option<(Handle, string)> {
    if id == IW_UNDEFINED then None else FirstRegistration(SinceUnregistered(ops, id), id)
  }

  lemma {:induction false} FirstRegistrationSnoc(ops: seq<Op>, op: Op, id: int)
    ensures FirstRegistration(ops + [op], id) ==
              if FirstRegistration(ops, id).Some? then FirstRegistration(ops, id)
              else if op.Register? && op.id == id then Some((op.handle, op.service)) else None
  {
    if ops == [] {
      assert ops + [op] == [op];
    } else {
      assert (ops + [op])[1..] == ops[1..] + [op];
      FirstRegistrationSnoc(ops[1..], op, id);
    }
  }

  lemma InForceSnoc(ops: seq<Op>, op: Op, id: int)
    ensures InForce(ops + [op], id) ==
              if op == Unregister(id) then None
              else if id != IW_UNDEFINED && InForce(ops, id).None? && op.Register? && op.id == id
              then Some((op.handle, op.service))
              else InForce(ops, id)
  {
    assert (ops + [op])[..|ops|] == ops;
    FirstRegistrationSnoc(SinceUnregistered(ops, id), op, id);
  }

  /** Events about one handle, to each of the listeners in turn. */
  function Drain(listeners: seq<Handle>, id: int): (events: seq<Event>)
    ensures |events| == |listeners| && forall i | 0 <= i < |events| :: events[i] == Event(listeners[i], id)
  {
    seq(|listeners|, i requires 0 <= i < |listeners| => Event(listeners[i], id))
  }

  lemma {:induction false} DrainSent(events: seq<Event>, listeners: seq<Handle>, id: int, other: int)
    ensures SentTo(events + Drain(listeners, id), other) ==
              if other == id then SentTo(events, other) + listeners else SentTo(events, other)
  {
    if listeners == [] {
      assert events + Drain(listeners, id) == events;
      assert SentTo(events, other) + [] == SentTo(events, other);
    } else {
      var n := |listeners| - 1;
      var all := events + Drain(listeners, id);
      assert all[..|all| - 1] == events + Drain(listeners[..n], id);
      DrainSent(events, listeners[..n], id, other);
      assert listeners == listeners[..n] + [listeners[n]];
      assert SentTo(events, other) + listeners[..n] + [listeners[n]]
          == SentTo(events, other) + (listeners[..n] + [listeners[n]]);
    }
  }

  // ----- the registrar -----

  class LocalProcessRegistrar {
    var processes: map<int, Handle>
    var services: map<int, string>
    var listeners: map<int, seq<Handle>>
    var events: seq<Event>

    constructor ()
      ensures processes == map[] && services == map[] && listeners == map[] && events == []
      ensures Valid()
    {
      processes, services, listeners, events := map[], map[], map[], [];
    }

    ghost predicate Valid()
      reads this
    {
      processes.Keys == services.Keys && IW_UNDEFINED !in processes
    }

    function Pending(id: int): seq<Handle>
      reads this
    {
      if id in listeners then listeners[id] else []
    }

    function Entry(id: int): Option<(Handle, string)>
      reads this
    {
      if id in processes && id in services then Some((processes[id], services[id])) else None
    }

    /** An id that is taken is refused with an exception. */
    method RegisterChannel(id: int, handle: Handle, service: string) returns (thrown: bool)
      requires Valid()
      modifies this`processes, this`services
      ensures Valid() && (thrown <==> id != IW_UNDEFINED && old(Entry(id)).Some?)
      ensures !thrown && id != IW_UNDEFINED ==> Entry(id) == Some((handle, service))
      ensures forall i | i != id || thrown || id == IW_UNDEFINED :: Entry(i) == old(Entry(i))
    {
      if id == IW_UNDEFINED {
        return false;
      }
      if id in processes {
        return true;
      }
      processes := processes[id := handle];
      services := services[id := service];
      thrown := false;
    }

    /** Takes the id out of both maps, and tells its listeners, once; an unknown id changes nothing. */
    method UnregisterChannel(id: int)
      requires Valid()
      modifies this
      ensures Valid() && Entry(id).None? && forall i | i != id :: Entry(i) == old(Entry(i))
      ensures events == old(events) + if old(Entry(id)).Some? then Drain(old(Pending(id)), id) else []
      ensures Pending(id) == if old(Entry(id)).Some? then [] else old(Pending(id))
      ensures forall i | i != id :: Pending(i) == old(Pending(i))
    {
      if id == IW_UNDEFINED {
        return;
      }
      if id !in processes {
        return;
      }
      processes := processes - {id};
      services := services - {id};
      if id in listeners {
        var list := listeners[id];
        for i := 0 to |list|
          invariant events == old(events) + Drain(list[..i], id)
          invariant processes == old(processes) - {id} && services == old(services) - {id}
          invariant listeners == old(listeners)
        {
          assert Drain(list[..i + 1], id) == Drain(list[..i], id) + [Event(list[i], id)];
          events := events + [Event(list[i], id)];
        }
        assert list[..|list|] == list;
        listeners := listeners - {id};
      }
    }

    /** Works whether or not the id is registered. */
    method AddShutdownListener(id: int, listener: Handle)
      modifies this`listeners
      ensures Pending(id) == old(Pending(id)) + [listener] && forall i | i != id :: Pending(i) == old(Pending(i))
    {
      if id !in listeners {
        listeners := listeners[id := []];
      }
      listeners := listeners[id := listeners[id] + [listener]];
    }

    method GetHandle(id: int) returns (h: Option<Handle>)
      requires Valid()
      ensures h == if Entry(id).Some? then Some(Entry(id).value.0) else None
    {
      h := if id in processes then Some(processes[id]) else None;
    }

    /** By service: the map is walked in the order of ids, so the smallest id that matches is found. */
    method GetHandleByService(matches: string -> bool) returns (h: Option<Handle>)
      requires Valid()
      ensures h.None? <==> forall i | Entry(i).Some? :: !matches(Entry(i).value.1)
      ensures h.Some? ==> exists i :: Entry(i).Some? && Entry(i).value.0 == h.value && matches(Entry(i).value.1)
                            && forall j | j < i && Entry(j).Some? :: !matches(Entry(j).value.1)
    {
      var todo := processes.Keys;
      while todo != {}
        invariant todo <= processes.Keys
        invariant forall i | i in processes && i !in todo :: !matches(services[i]) && forall j | j in todo :: i < j
        decreases todo
      {
        var i := Least(todo);
        if matches(services[i]) {
          assert Entry(i).Some?;
          return Some(processes[i]);
        }
        todo := todo - {i};
      }
      h := None;
    }

    method Call(op: Op)
      requires Valid()
      modifies this
      ensures Valid()
      ensures forall i :: Entry(i) ==
                if op == Unregister(i) then None
                else if i != IW_UNDEFINED && old(Entry(i)).None? && op.Register? && op.id == i
                then Some((op.handle, op.service))
                else old(Entry(i))
      ensures forall i :: SentTo(events, i) + Pending(i) ==
                old(SentTo(events, i) + Pending(i)) + if op.AddListener? && op.id == i then [op.listener] else []
    {
      hide SentTo;
      ghost var was := events;
      match op {
        case Register(id, handle, service) => var _ := RegisterChannel(id, handle, service);
        case Unregister(id) =>
          UnregisterChannel(id);
          assert was + [] == was;
          forall i ensures SentTo(events, i) + Pending(i) == SentTo(was, i) + old(Pending(i)) {
            DrainSent(was, old(Pending(id)), id, i);
            assert SentTo(was, i) + old(Pending(i)) + [] == SentTo(was, i) + old(Pending(i));
          }
          assert forall i :: SentTo(was, i) + old(Pending(i)) + [] == SentTo(was, i) + old(Pending(i));
        case AddListener(id, listener) =>
          AddShutdownListener(id, listener);
          assert forall i ::
              SentTo(was, i) + (old(Pending(i)) + [listener]) == SentTo(was, i) + old(Pending(i)) + [listener];
      }
    }

    /** Over any calls, from an empty registrar: both maps know the registrations in force, and for
        every id the listeners told and the listeners waiting are, in order, those that were added. */
    method Replay(ops: seq<Op>)
      requires Valid() && processes == map[] && services == map[] && listeners == map[] && events == []
      modifies this
      ensures forall id :: Entry(id) == InForce(ops, id)
      ensures processes.Keys == services.Keys
      ensures forall id :: SentTo(events, id) + Pending(id) == AddedTo(ops, id)
    {
      hide SentTo, AddedTo, InForce;
      Nothing();
      for k := 0 to |ops|
        invariant Valid() && forall id :: Entry(id) == InForce(ops[..k], id)
        invariant forall id :: SentTo(events, id) + Pending(id) == AddedTo(ops[..k], id)
      {
        assert ops[..k + 1] == ops[..k] + [ops[k]];
        forall id
          ensures InForce(ops[..k + 1], id) ==
                    if ops[k] == Unregister(id) then None
                    else if id != IW_UNDEFINED && InForce(ops[..k], id).None? && ops[k].Register? && ops[k].id == id
                    then Some((ops[k].handle, ops[k].service))
                    else InForce(ops[..k], id)
          ensures AddedTo(ops[..k + 1], id) ==
                    AddedTo(ops[..k], id) + if ops[k].AddListener? && ops[k].id == id then [ops[k].listener] else []
        {
          InForceSnoc(ops[..k], ops[k], id);
          AddedSnoc(ops[..k], ops[k], id);
        }
        Call(ops[k]);
      }
      assert ops[..|ops|] == ops;
    }
  }

  /** Holds a registration until it goes out of scope, unless it has been dismissed. */
  class RegistrationGuard {
    const registrar: LocalProcessRegistrar
    var handleUid: int

    constructor Of(registrar: LocalProcessRegistrar, uid: int)
      ensures this.registrar == registrar && handleUid == uid
    {
      this.registrar, handleUid := registrar, uid;
    }

    method Dismiss()
      modifies this
      ensures handleUid == IW_UNDEFINED
    {
      handleUid := IW_UNDEFINED;
    }

    /** The destructor. */
    method Leave()
      requires registrar.Valid()
      modifies registrar
      ensures registrar.Valid()
      ensures forall i :: registrar.Entry(i) == if i == handleUid then None else old(registrar.Entry(i))
      ensures handleUid == IW_UNDEFINED ==>
                && registrar.events == old(registrar.events)
                && forall i :: registrar.Pending(i) == old(registrar.Pending(i))
    {
      if handleUid != IW_UNDEFINED {
        registrar.UnregisterChannel(handleUid);
      }
    }
  }

  /** The constructor of a guard: an exception of the registrar leaves none. */
  method NewGuard(registrar: LocalProcessRegistrar, uid: int, handle: Handle, service: string)
    returns (guard: RegistrationGuard?)
    requires registrar.Valid()
    modifies registrar`processes, registrar`services
    ensures registrar.Valid() && (guard == null <==> uid != IW_UNDEFINED && old(registrar.Entry(uid)).Some?)
    ensures guard != null ==> fresh(guard) && guard.registrar == registrar && guard.handleUid == uid
    ensures forall i :: registrar.Entry(i) ==
              if i == uid && guard != null && uid != IW_UNDEFINED then Some((handle, service))
              else old(registrar.Entry(i))
  {
    var thrown := registrar.RegisterChannel(uid, handle, service);
    if thrown {
      return null;
    }
    guard := new RegistrationGuard.Of(registrar, uid);
  }

  /** A guard that comes and goes leaves the registrations as they were, whether or not its id was
      free; dismissed, it leaves its own behind. */
  method Scope(registrar: LocalProcessRegistrar, uid: int, handle: Handle, service: string, dismissed: bool)
    requires registrar.Valid()
    modifies registrar
    ensures registrar.Valid()
    ensures forall i :: registrar.Entry(i) ==
              if i == uid && dismissed && uid != IW_UNDEFINED && old(registrar.Entry(uid)).None?
              then Some((handle, service))
              else old(registrar.Entry(i))
  {
    var guard := NewGuard(registrar, uid, handle, service);
    if guard != null {
      if dismissed {
        guard.Dismiss();
      }
      guard.Leave();
    }
  }

  /** The next key of a std::map. */
  method Least(s: set<int>) returns (m: int)
    requires s != {}
    ensures m in s && forall x | x in s :: m <= x
  {
    ghost var some := Pick(s);
    m :| m in s;
    var todo := s - {m};
    while todo != {}
      invariant m in s && todo <= s && forall x | x in s && x !in todo :: m <= x
      decreases todo
    {
      ghost var one := Pick(todo);
      var x :| x in todo;
      if x < m {
        m := x;
      }
      todo := todo - {x};
    }
  }

  lemma AddedSnoc(ops: seq<Op>, op: Op, id: int)
    ensures AddedTo(ops + [op], id) == AddedTo(ops, id) + if op.AddListener? && op.id == id then [op.listener] else []
  {
  }

  lemma Nothing()
    ensures forall id :: SentTo([], id) + [] == AddedTo([], id) && InForce([], id) == None
  {
  }
}
