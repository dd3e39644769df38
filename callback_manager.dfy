/** The callback registry: a table from event-type name to handler, created
    with five pass-through handlers and only ever overwritten entry by entry. */
module Callbacks {
  import opened Wrappers
  import opened Dicts

  /** A handler, reduced to what the registry inspects: the number of
      positional parameters its signature lists (None when introspection finds
      no signature) and whether it is callable. `name` tells user handlers
      apart, as object identity does in Python. */
  datatype Handler =
    | DefaultCallback
    | UserCallback(name: string, positionalArgs: Option<int>, isCallable: bool)
  {
    /** `len(getfullargspec(callback).args)`: introspection raises TypeError
        for an object that is not callable or has no signature to read. */
    function ArgCount(): (r: Result<int>)
      ensures r.Ok? ==> IsCallable()
      ensures !IsCallable() ==> r == Err(UnsupportedCallable)
    {
      match this
      case DefaultCallback => Ok(1)
      case UserCallback(_, n, c) =>
        if c && n.Some? then Ok(n.value) else Err(UnsupportedCallable)
    }

    /** What `callable()` answers. */
    predicate IsCallable()
    {
      match this
      case DefaultCallback => true
      case UserCallback(_, _, c) => c
    }

    /** The result of invoking the handler on an event, where it is known:
        the default handler hands its argument back; user code is opaque. */
    function Apply<T>(e: T): Option<T>
    {
      match this
      case DefaultCallback => Some(e)
      case UserCallback(_, _, _) => None
    }
  }

  /** The event types a webhook entry can carry, in the registry's order. */
  const EventTypes: seq<string> := ["message", "postback", "read", "delivery", "optin"]

  /** The entries of the module-level `default_callbacks` dict. */
  function DefaultCallbacks(): seq<(string, Handler)>
  {
    [("message", DefaultCallback), ("postback", DefaultCallback), ("read", DefaultCallback),
     ("delivery", DefaultCallback), ("optin", DefaultCallback)]
  }

  /** What `get_callback` answers for a table. */
  function Lookup(table: seq<(string, Handler)>, callerType: string): (r: Result<Handler>)
    ensures r.Ok? <==> HasKey(table, callerType)
    ensures r.Ok? ==> Find(table, callerType) == Some(r.value)
    ensures r.Err? ==> r.error == UnknownEventType(Some(callerType), Keys(table))
  {
    match Find(table, callerType)
    case Some(h) => Ok(h)
    case None => Err(UnknownEventType(Some(callerType), Keys(table)))
  }

  /** What `set_callback` does to a table: the table it leaves behind, or the
      exception it raises. Introspection and the arity are checked first, then
      the event type, then callability. */
  function Register(table: seq<(string, Handler)>, callback: Handler, callerType: string)
    : (r: Result<seq<(string, Handler)>>)
    ensures r.Ok? ==> Keys(r.value) == Keys(table) && Lookup(r.value, callerType) == Ok(callback)
  {
    match callback.ArgCount()
    case Err(e) => Err(e)
    case Ok(n) =>
      if !(0 < n < 3) then Err(ArityError)
      else if !HasKey(table, callerType) then Err(UnknownEventType(Some(callerType), Keys(table)))
      else if !callback.IsCallable() then Err(NotCallable)
      else Ok(Put(table, callerType, callback))
  }

  /** The tables a series of `set_callback` calls passes through, each call
      seeing the table the previous one left (a failed call leaves it as it was). */
  function RegisterAll(table: seq<(string, Handler)>, calls: seq<(Handler, string)>)
    : seq<(string, Handler)>
    decreases |calls|
  {
    if calls == [] then table
    else
      var next := match Register(table, calls[0].0, calls[0].1)
        case Ok(t) => t
        case Err(_) => table;
      RegisterAll(next, calls[1..])
  }

  lemma DefaultRegistry()
    ensures Keys(DefaultCallbacks()) == EventTypes
    ensures DistinctKeys(DefaultCallbacks())
    ensures forall k :: k in EventTypes ==> Lookup(DefaultCallbacks(), k) == Ok(DefaultCallback)
    ensures DefaultCallback.ArgCount() == Ok(1) && DefaultCallback.IsCallable()
  {
    var d := DefaultCallbacks();
    assert Keys(d) == EventTypes by {
      assert d[1..][1..][1..][1..][1..] == [];
    }
  }

  /** Every default handler returns the event it is given, unchanged. */
  lemma DefaultHandlersReturnTheirArgument<T>(k: string, e: T)
    requires k in EventTypes
    ensures Lookup(DefaultCallbacks(), k).Ok?
    ensures Lookup(DefaultCallbacks(), k).value.Apply(e) == Some(e)
  {
    DefaultRegistry();
  }

  /** A handler introspection cannot read is refused with TypeError before
      anything else is looked at; in particular every non-callable one is. */
  lemma RegisterUninspectable(table: seq<(string, Handler)>, callback: Handler, callerType: string)
    requires callback.ArgCount().Err?
    ensures Register(table, callback, callerType) == Err(UnsupportedCallable)
    ensures Register(table, callback, callerType).error.ExceptionName() == "TypeError"
  {
  }

  /** A bad arity is reported before the event type is looked at. */
  lemma RegisterBadArity(table: seq<(string, Handler)>, callback: Handler, callerType: string)
    requires callback.ArgCount().Ok? && !(0 < callback.ArgCount().value < 3)
    ensures Register(table, callback, callerType) == Err(ArityError)
    ensures Register(table, callback, callerType).error.ExceptionName() == "ValueError"
  {
  }

  /** An unknown event type is refused with the table's keys, in order. */
  lemma RegisterUnknownType(table: seq<(string, Handler)>, callback: Handler, callerType: string)
    requires callback.ArgCount().Ok? && 0 < callback.ArgCount().value < 3
    requires !HasKey(table, callerType)
    ensures Register(table, callback, callerType)
         == Err(UnknownEventType(Some(callerType), Keys(table)))
    ensures Register(table, callback, callerType).error.ExceptionName() == "ValueError"
  {
  }

  /** A non-callable handler raises TypeError whatever the event type, but
      from introspection: the callability check after the type check never
      raises, since a handler that gets past introspection is callable. */
  lemma RegisterNotCallable(table: seq<(string, Handler)>, callback: Handler, callerType: string)
    ensures !callback.IsCallable() ==> Register(table, callback, callerType) == Err(UnsupportedCallable)
    ensures Register(table, callback, callerType) != Err(NotCallable)
  {
  }

  /** Registration succeeds exactly when introspection reads one or two
      positional parameters and the type is known; afterwards the type answers
      with the new handler, every other type with what it had, and the keys
      are the same keys in the same order. */
  lemma RegisterThenLookup(table: seq<(string, Handler)>, callback: Handler, callerType: string)
    ensures Register(table, callback, callerType).Ok?
        <==> callback.ArgCount().Ok? && 0 < callback.ArgCount().value < 3 && HasKey(table, callerType)
    ensures Register(table, callback, callerType).Ok? ==>
      var t := Register(table, callback, callerType).value;
      && Keys(t) == Keys(table)
      && Lookup(t, callerType) == Ok(callback)
      && forall other :: other != callerType ==> Lookup(t, other) == Lookup(table, other)
  {
  }

  /** However many registrations are made, successful or not, the key list never
      changes: no event type is ever added, removed or moved. */
  lemma {:induction false} KeysNeverChange(table: seq<(string, Handler)>, calls: seq<(Handler, string)>)
    ensures Keys(RegisterAll(table, calls)) == Keys(table)
    decreases |calls|
  {
    if calls != [] {
      var next := match Register(table, calls[0].0, calls[0].1)
        case Ok(t) => t
        case Err(_) => table;
      RegisterThenLookup(table, calls[0].0, calls[0].1);
      KeysNeverChange(next, calls[1..]);
    }
  }

  /** `CallbackManager`: it keeps the very dict object it is constructed with. */
  class CallbackManager {
    var callbacks: Dict<Handler>

    ghost predicate Valid()
      reads this, callbacks
    {
      callbacks.Valid()
    }

    constructor (defaultCallbacks: Dict<Handler>)
      requires defaultCallbacks.Valid()
      ensures Valid()
      ensures callbacks == defaultCallbacks && callbacks.items == old(defaultCallbacks.items)
    {
      callbacks := defaultCallbacks;
    }

    /** `set_callback`: overwrites the entry of the shared dict in place, or
        raises and leaves the dict as it was. */
    method SetCallback(callback: Handler, callerType: string) returns (o: Outcome)
      requires Valid()
      modifies callbacks
      ensures Valid()
      ensures Keys(callbacks.items) == Keys(old(callbacks.items))
      ensures match Register(old(callbacks.items), callback, callerType)
              case Ok(t) => o == Pass && callbacks.items == t
              case Err(e) => o == Fail(e) && callbacks.items == old(callbacks.items)
    {
      RegisterThenLookup(callbacks.items, callback, callerType);
      var argCount := callback.ArgCount();
      if argCount.Err? {
        return Fail(argCount.error);
      }
      if !(0 < argCount.value < 3) {
        return Fail(ArityError);
      }
      var known := callbacks.Contains(callerType);
      if known {
        if callback.IsCallable() {
          callbacks.Set(callerType, callback);
          o := Pass;
        } else {
          o := Fail(NotCallable);
        }
      } else {
        var available := callbacks.KeyList();
        o := Fail(UnknownEventType(Some(callerType), available));
      }
    }

    /** `get_callback`: a lookup that changes nothing. */
    method GetCallback(callerType: string) returns (r: Result<Handler>)
      ensures r == Lookup(callbacks.items, callerType)
    {
      var known := callbacks.Contains(callerType);
      if known {
        r := callbacks.Get(callerType);
      } else {
        var available := callbacks.KeyList();
        r := Err(UnknownEventType(Some(callerType), available));
      }
    }
  }
}
