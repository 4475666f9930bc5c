/**
 * The named-event registry of web/js/reactor/Reactor.ts: a dictionary from
 * event name to the listener list of that event.
 *
 * web/js/reactor/Event is not part of this model; an event is taken to be its
 * list of listeners: `registerListener` appends, `removeListener` removes the
 * first occurrence and reports whether there was one, `getListeners` returns
 * the list. Listener functions are identified by ids; what a listener does
 * when called is reduced to whether it throws.
 */
module Reactor {

  type ListenerId = nat

  /** The value passed as a listener: a function, or a value of another `typeof`. */
  datatype ListenerArg = Function(id: ListenerId) | NotAFunction(typeName: string)

  /** The errors the registry throws. */
  datatype ReactorError =
    | NoEventsFor(name: string)
    | ListenerNotAFunction(typeName: string)
    | NoRegisteredEvent(name: string)
    | UndefinedEvent(name: string)
  {
    /** The message of the `Error` the registry throws; `UndefinedEvent` is the engine's own `TypeError`. */
    function Message(): string
      requires !UndefinedEvent?
    {
      match this
      case NoEventsFor(n) => "No events for event name: " + n
      case ListenerNotAFunction(t) => "listener is not a function: " + t
      case NoRegisteredEvent(n) => "No registered event for event name: " + n
    }
  }

  datatype Result<+T> = Ok(value: T) | Err(error: ReactorError)

  /** One call of a listener with a dispatched value. */
  datatype Call<V> = Call(listener: ListenerId, value: V)

  /** What a dispatch did: every call made, in order, and the listeners whose exception was logged. */
  datatype Dispatch<V> = Dispatch(calls: seq<Call<V>>, logged: seq<ListenerId>)

  /** The listeners of `ls`, in order, that throw when called. */
  function Throwing(ls: seq<ListenerId>, throws: ListenerId -> bool): seq<ListenerId>
    decreases |ls|
  {
    if ls == [] then []
    else Throwing(ls[..|ls| - 1], throws) + (if throws(ls[|ls| - 1]) then [ls[|ls| - 1]] else [])
  }

  /** Exactly the throwing listeners are logged. */
  lemma {:induction false} ThrowingListenersAreLogged(ls: seq<ListenerId>, throws: ListenerId -> bool)
    ensures forall l :: l in Throwing(ls, throws) <==> l in ls && throws(l)
    decreases |ls|
  {
    if ls != [] {
      var init := ls[..|ls| - 1];
      ThrowingListenersAreLogged(init, throws);
      assert ls == init + [ls[|ls| - 1]];
    }
  }

  /** The position of the first occurrence of `l` in `ls`, or `|ls|` if there is none. */
  function IndexOf(ls: seq<ListenerId>, l: ListenerId): (i: nat)
    ensures i <= |ls|
    ensures i < |ls| ==> ls[i] == l
    ensures forall k :: 0 <= k < i ==> ls[k] != l
    decreases |ls|
  {
    if ls == [] then 0 else if ls[0] == l then 0 else 1 + IndexOf(ls[1..], l)
  }

  datatype Removal = Removal(listeners: seq<ListenerId>, removed: bool)

  /** `Event.removeListener`: drop the first occurrence of `l`, and report whether there was one. */
  function RemoveListener(ls: seq<ListenerId>, l: ListenerId): (r: Removal)
    ensures r.removed <==> l in ls
    ensures !r.removed ==> r.listeners == ls
    ensures r.removed ==> |r.listeners| == |ls| - 1 && multiset(r.listeners) == multiset(ls) - multiset{l}
    ensures r.removed ==>
              exists i :: 0 <= i < |ls| && ls[i] == l && l !in ls[..i] && r.listeners == ls[..i] + ls[i + 1..]
  {
    var i := IndexOf(ls, l);
    if i == |ls| then Removal(ls, false)
    else
      assert ls == ls[..i] + [l] + ls[i + 1..];
      assert l !in ls[..i] by {
        forall k | 0 <= k < i ensures ls[..i][k] != l {
        }
      }
      Removal(ls[..i] + ls[i + 1..], true)
  }

  /** Removing a listener just registered, and not registered before, restores the list. */
  lemma RemoveUndoesRegister(ls: seq<ListenerId>, l: ListenerId)
    requires l !in ls
    ensures RemoveListener(ls + [l], l) == Removal(ls, true)
  {
    var i := IndexOf(ls + [l], l);
    assert (ls + [l])[|ls|] == l;
    assert i == |ls|;
    assert (ls + [l])[..i] == ls;
  }

  class Reactor<V> {
    /** `events`: the listener list of every registered event name */
    var events: map<string, seq<ListenerId>>
    /** the registered names in insertion order, as `Object.keys` lists them */
    var names: seq<string>

    ghost predicate Valid()
      reads this
    {
      && (forall n :: n in names <==> n in events)
      && (forall i, j :: 0 <= i < j < |names| ==> names[i] != names[j])
    }

    constructor ()
      ensures Valid() && events == map[] && names == []
    {
      events := map[];
      names := [];
    }

    /** `registerEvent`: a new name gets an empty listener list; a registered one keeps its listeners. */
    method RegisterEvent(name: string)
      requires Valid()
      modifies this
      ensures Valid()
      ensures name in old(events) ==> events == old(events) && names == old(names)
      ensures name !in old(events) ==> events == old(events)[name := []] && names == old(names) + [name]
    {
      if name in events {
        return;
      }
      events := events[name := []];
      names := names + [name];
    }

    /** `eventNames`: every registered name, once each, in registration order. */
    method EventNames() returns (r: seq<string>)
      requires Valid()
      ensures r == names
      ensures forall n :: n in r <==> n in events
      ensures forall i, j :: 0 <= i < j < |r| ==> r[i] != r[j]
    {
      r := names;
    }

    /** `clearEvent`: the name is registered with no listeners, whether or not it was before; nothing else changes. */
    method ClearEvent(name: string)
      requires Valid()
      modifies this
      ensures Valid()
      ensures events == old(events)[name := []]
      ensures names == if name in old(events) then old(names) else old(names) + [name]
    {
      if name !in events {
        names := names + [name];
      }
      events := events[name := []];
    }

    /**
     * `dispatchEvent`: an unregistered name throws; otherwise every listener
     * of the event is called with the value, in list order, and one that
     * throws is logged without stopping the ones after it.
     */
    method DispatchEvent(name: string, value: V, throws: ListenerId -> bool) returns (r: Result<Dispatch<V>>)
      ensures name !in events ==> r == Err(NoEventsFor(name))
      ensures name in events ==>
                && r.Ok?
                && |r.value.calls| == |events[name]|
                && (forall i :: 0 <= i < |events[name]| ==> r.value.calls[i] == Call(events[name][i], value))
                && r.value.logged == Throwing(events[name], throws)
    {
      if name !in events {
        return Err(NoEventsFor(name));
      }
      var ls := events[name];
      var calls: seq<Call<V>> := [];
      var logged: seq<ListenerId> := [];
      for i := 0 to |ls|
        invariant |calls| == i
        invariant forall k :: 0 <= k < i ==> calls[k] == Call(ls[k], value)
        invariant logged == Throwing(ls[..i], throws)
      {
        // listener(value), inside try/catch
        calls := calls + [Call(ls[i], value)];
        if throws(ls[i]) {
          logged := logged + [ls[i]];
        }
        assert ls[..i + 1][..i] == ls[..i];
      }
      assert ls[..|ls|] == ls;
      r := Ok(Dispatch(calls, logged));
    }

    /**
     * `addEventListener`: a listener that is not a function, or an
     * unregistered name, throws and changes nothing; otherwise the listener is
     * appended to that event's list and no other event changes.
     */
    method AddEventListener(name: string, listener: ListenerArg) returns (r: Result<()>)
      requires Valid()
      modifies this
      ensures Valid() && names == old(names)
      ensures listener.NotAFunction? ==> r == Err(ListenerNotAFunction(listener.typeName)) && events == old(events)
      ensures listener.Function? && name !in old(events) ==> r == Err(NoRegisteredEvent(name)) && events == old(events)
      ensures listener.Function? && name in old(events) ==>
                r == Ok(()) && events == old(events)[name := old(events)[name] + [listener.id]]
    {
      if listener.NotAFunction? {
        return Err(ListenerNotAFunction(listener.typeName));
      }
      if name !in events {
        return Err(NoRegisteredEvent(name));
      }
      events := events[name := events[name] + [listener.id]];
      r := Ok(());
    }

    /** `removeEventListener`: false for an unregistered name, otherwise what the event's removal reports. */
    method RemoveEventListener(name: string, listener: ListenerId) returns (removed: bool)
      requires Valid()
      modifies this
      ensures Valid() && names == old(names)
      ensures name !in old(events) ==> !removed && events == old(events)
      ensures name in old(events) ==>
                var rm := RemoveListener(old(events)[name], listener);
                removed == rm.removed && events == old(events)[name := rm.listeners]
    {
      if name !in events {
        return false;
      }
      var rm := RemoveListener(events[name], listener);
      events := events[name := rm.listeners];
      removed := rm.removed;
    }

    /** `getEventListeners`: the listener list of a registered event; an unregistered name throws. */
    method GetEventListeners(name: string) returns (r: Result<seq<ListenerId>>)
      ensures name in events ==> r == Ok(events[name])
      ensures name !in events ==> r == Err(UndefinedEvent(name))
    {
      if name !in events {
        return Err(UndefinedEvent(name));
      }
      r := Ok(events[name]);
    }
  }
}
