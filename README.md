# fb_messenger: callback registry and webhook events

This project models the core of `fb_messenger`, a small library for Facebook
Messenger webhooks. Two parts are modelled.

- The **callback registry** (`callback_manager.py`). It is a dict from event
  type to handler. It starts with five pass-through handlers, one each for
  `message`, `postback`, `read`, `delivery` and `optin`. `set_callback`
  overwrites one entry in place after its checks, made in this order:
  introspecting the handler's positional arity, then a known event type,
  then callability. Introspection already raises TypeError for any object
  that is not callable, so the explicit callability check never raises.
  `get_callback` looks a handler up. The manager keeps the module-level dict object itself,
  so a registration also changes `default_callbacks`.
- **Events** (`event.py`). `Event.from_json` turns one decoded webhook entry
  into an `Event`:
  - it reads both ids;
  - it pops `sender`, `recipient` and, when present, `timestamp` out of the
    caller's own dict;
  - it takes the first remaining key as the event type and its value as the
    content;
  - it keeps the dict itself as `raw`.

  `get_callback` asks the shared manager for the event type. `reply` and
  `user_info` build requests for the Graph API.

How it is modelled:

- **Dicts** (`dicts.dfy`). A Python dict (insertion-ordered, string keys) is
  an entry list with distinct keys. The pure functions `Keys`, `Find`, `Put`
  and `Remove` describe the entry list. The class `Dict` is the mutable object,
  so that in-place updates and aliasing can be stated.
- **Json** (`json.dfy`). The decoded payload is the datatype `Json`.
  `Subscript` is `value[key]`, including its `KeyError` and `TypeError`
  outcomes.
- **Wrappers** (`wrappers.dfy`). Raised exceptions are values of `Error`, and
  a call's result is `Result`. `Error.ExceptionName` gives the Python exception
  class.
- **Callbacks** (`callback_manager.dfy`). `Register` and `Lookup` specify
  `set_callback` and `get_callback` on entry lists. `CallbackManager` is the
  class, and its methods are proved against those functions.
- **Events** (`event.dfy`). `ParseEntry` and `AfterParse` specify what
  `from_json` returns and what it leaves in the caller's dict. `Event.FromJson`
  is the imperative method proved against them. `ReplyBody`, `ReplyUrl`,
  `UserInfoUrl` and `UserInfoParams` are the requests `reply` and `user_info`
  hand to the transport.

Notes on the code:

- An unknown event type raises `ValueError`, the same class as a bad arity.
- `getfullargspec` raises `TypeError` for an object that is not callable, so a
  non-callable handler is refused at the arity check, whatever the event type.
  It never reaches the `TypeError` branch that checks callability.
- The profile-field string sent by `user_info` contains 22 spaces. The
  literal is continued with a backslash, which keeps the next line's
  indentation.
- The query parameter is spelled `fiels`.

## Model

| member | source | states |
|---|---|---|
| Dicts.HasKeyInKeys | fb_messenger/callback_manager.py:52 | `k in d` holds exactly when k is among the dict's listed keys |
| Dicts.Put | fb_messenger/callback_manager.py:54 | assigning to an existing key keeps the key order; a new key goes last; the key then maps to the new value and every other key keeps its value |
| Dicts.PutKeepsDistinct | fb_messenger/callback_manager.py:54 | assigning to a key never makes a key occur twice |
| Dicts.Remove | fb_messenger/event.py:51-52 | popping a key drops exactly that key from the key order; the key is then absent and every other key keeps its value; keys stay distinct; popping an absent key changes nothing |
| Dicts.OmitMissing | fb_messenger/event.py:51-52 | a helper of Remove: dropping a key that does not occur leaves the key list unchanged, which is what popping a key from an entry whose other keys are distinct needs |
| Dicts.OmitTwice | fb_messenger/event.py:51-56 | dropping one set of keys and then another equals dropping both at once |
| Dicts.Dict.Contains | fb_messenger/callback_manager.py:52 | `k in d` answers whether the dict holds k |
| Dicts.Dict.Get | fb_messenger/event.py:49 | `d[k]` yields k's value exactly when k is present, and KeyError(k) otherwise |
| Dicts.Dict.KeyList | fb_messenger/callback_manager.py:63 | `list(d.keys())` is the keys in insertion order |
| Dicts.Dict.FirstKey | fb_messenger/event.py:58 | `next(iter(d.keys()))` is the first entry's key, or StopIteration on an empty dict |
| Dicts.Dict.Set | fb_messenger/callback_manager.py:54 | `d[k] = v` updates the dict in place to the assigned entry list and keeps keys distinct |
| Dicts.Dict.Pop | fb_messenger/event.py:51-52 | `d.pop(k)` returns k's value or raises KeyError, and leaves the dict without k |
| Json.Subscript | fb_messenger/event.py:49-50 | `j[key]` succeeds exactly on an object holding key and yields that member; an object without key raises KeyError; any other value raises TypeError |
| Callbacks.Lookup | fb_messenger/callback_manager.py:77-85 | a lookup succeeds exactly for a registered type and yields its handler; otherwise it raises ValueError, carrying the type and the keys in order |
| Callbacks.DefaultRegistry | fb_messenger/callback_manager.py:16-22 | the default registry has exactly the five event types, in order and distinct; each maps to the default handler, whose arity is 1 and which is callable |
| Callbacks.DefaultHandlersReturnTheirArgument | fb_messenger/callback_manager.py:6-13 | every default handler returns the event it is given |
| Callbacks.Handler.IsCallable | fb_messenger/callback_manager.py:53 | what `callable(callback)` answers; ArgCount and RegisterNotCallable state how it bears on registration |
| Callbacks.Handler.Apply | fb_messenger/callback_manager.py:6-13 | the result of calling a handler: the default handler returns its argument (DefaultHandlersReturnTheirArgument); user code is opaque |
| Callbacks.Handler.ArgCount | fb_messenger/callback_manager.py:48 | introspection reads the positional-parameter count only of a callable handler; every non-callable one raises TypeError |
| Callbacks.DefaultCallbacks | fb_messenger/callback_manager.py:16-22 | the five default entries; DefaultRegistry states their keys, order and handlers |
| Callbacks.Register | fb_messenger/callback_manager.py:48-64 | the outcome of `set_callback` on a table: a successful registration keeps the keys and makes the type answer with the new handler; the lemmas below state each error case and the exact success condition |
| Callbacks.RegisterAll | fb_messenger/callback_manager.py:36-64 | the table after a series of `set_callback` calls, a failed call leaving it as it was; KeysNeverChange states its keys |
| Callbacks.RegisterUninspectable | fb_messenger/callback_manager.py:48 | a handler introspection cannot read (in particular any non-callable) is refused with TypeError before the arity or the type is looked at |
| Callbacks.RegisterBadArity | fb_messenger/callback_manager.py:48-50 | a handler whose introspected arity is not one or two is refused with ValueError before the type is looked at |
| Callbacks.RegisterUnknownType | fb_messenger/callback_manager.py:52-64 | with a good arity, an unregistered type is refused with ValueError listing the registry's keys in order |
| Callbacks.RegisterNotCallable | fb_messenger/callback_manager.py:48-56 | a non-callable handler raises TypeError from introspection whatever the type, and the callability branch never raises |
| Callbacks.RegisterThenLookup | fb_messenger/callback_manager.py:48-56 | registration succeeds exactly when introspection reads one or two positional parameters and the type is known; then the keys stay the same, the type answers with the new handler and every other type answers as before |
| Callbacks.KeysNeverChange | fb_messenger/callback_manager.py:52-64 | after any series of registrations, successful or not, the registry has the same keys in the same order |
| Callbacks.CallbackManager.constructor | fb_messenger/callback_manager.py:32-34 | the manager holds the very dict object it is given (aliasing), unchanged |
| Callbacks.CallbackManager.SetCallback | fb_messenger/callback_manager.py:36-64 | on success the shared dict becomes the registered table and the call returns None; on failure it raises the error Register names and leaves the dict as it was; the key order is always preserved |
| Dicts.Dict.constructor | fb_messenger/callback_manager.py:16-22 | a dict object created from distinct-keyed entries holds exactly those entries |
| Callbacks.CallbackManager.GetCallback | fb_messenger/callback_manager.py:66-85 | returns the Lookup answer for the current shared dict and changes nothing |
| Events.Ids | fb_messenger/event.py:49-50 | reads `json_data['sender']['id']`, then `json_data['recipient']['id']`; it succeeds whenever both keys are present and both hold an `id`; a missing sender raises KeyError('sender'); on success both keys are present and the ids are their nested `id` members |
| Events.Stripped | fb_messenger/event.py:51-56 | after the pops, none of sender, recipient, timestamp is left, every other key keeps its value, keys stay distinct; StrippedKeys states the key order |
| Events.ParseEntry | fb_messenger/event.py:41-61 | the fields `from_json` sets or the exception it raises: the event type is never a consumed key and the content is the entry's value under it; ParseReadsIds, ParseEventType, ParseNothingLeft and the missing-key lemmas state the rest |
| Events.AfterParse | fb_messenger/event.py:49-58 | the caller's dict after `from_json`: once the ids are read, sender, recipient and timestamp are gone and the remaining keys keep their order and values; on any failure to read an id it is untouched; keys stay distinct |
| Events.ParseEntrySucceeds | fb_messenger/event.py:49-59 | readable ids and a first remaining entry determine the parsed event |
| Events.StrippedKeys | fb_messenger/event.py:51-56 | the residual dict keeps every non-consumed key, in order and with its value, and none of sender, recipient, timestamp |
| Events.ParseMissingSender | fb_messenger/event.py:49 | without `sender`, parsing raises KeyError('sender') and the caller's dict is untouched |
| Events.ParseMissingRecipient | fb_messenger/event.py:49 | with a readable sender id but no `recipient`, parsing raises KeyError('recipient') and the dict is untouched |
| Events.ParseReadsIds | fb_messenger/event.py:49-56 | parsing succeeds exactly when both ids can be read and a non-consumed key remains; the ids are the nested `id` members; the timestamp is present exactly when the entry has one, and then it is that value |
| Events.ParseEventType | fb_messenger/event.py:58-60 | the event type is the first non-consumed key, is never a consumed key, and its content is that key's value; `raw` starts with that entry |
| Events.ParseNothingLeft | fb_messenger/event.py:51-58 | when only consumed keys are present, `next` raises StopIteration after the dict has been emptied |
| Events.ParseExample | fb_messenger/event.py:41-61 | an entry shaped as Messenger webhooks deliver it, with a timestamp and a message, parses to the expected Event and leaves only the message entry |
| Events.ReplyBody | fb_messenger/event.py:94-99 | the reply body; ReplyShape and ReplyGoesBackToSender state its keys and members |
| Events.ReplyUrl | fb_messenger/event.py:100-103 | the reply URL; ReplyShape expands it and ReplyUrlDeterminesToken shows the token can be read back |
| Events.UserInfoUrl | fb_messenger/event.py:74-77 | the profile URL; UserInfoShape expands it |
| Events.UserInfoParams | fb_messenger/event.py:78-82 | the profile query parameters; UserInfoShape states their keys and values |
| Events.ReplyShape | fb_messenger/event.py:94-103 | the reply body has exactly keys recipient and message, with `{id: sender_id}` and the message unchanged; the URL expands to the send endpoint with the page token |
| Events.ReplyUrlDeterminesToken | fb_messenger/event.py:100-103 | two page tokens giving the same reply URL are the same token |
| Events.UserInfoShape | fb_messenger/event.py:73-82 | the profile URL is the Graph URL followed by the sender id; the parameters are exactly `fiels` with the profile-field string and `access_token` with the page token |
| Events.ReplyGoesBackToSender | fb_messenger/event.py:94-99 | a reply to a parsed entry is addressed to the entry's sender id |
| Events.LoadModules | fb_messenger/event.py:22 | loading the modules creates the default dict and a class-level manager that holds that same dict |
| Events.Event.constructor | fb_messenger/event.py:26-39 | the four given attributes are stored; timestamp, event type, content and raw start as None |
| Events.Event.ReadIds | fb_messenger/event.py:49-50 | reads `json_data['sender']['id']` and then `json_data['recipient']['id']`, raising the first failure, without changing the dict |
| Events.Event.PopConsumed | fb_messenger/event.py:51-56 | leaves the caller's dict without sender, recipient and timestamp, and returns the timestamp the entry had |
| Events.Event.FirstEntry | fb_messenger/event.py:58-59 | yields the dict's first entry, or StopIteration when the dict is empty |
| Events.Event.FromJson | fb_messenger/event.py:41-61 | the caller's dict ends as AfterParse; an exception is exactly the one ParseEntry names; otherwise a fresh Event carries ParseEntry's fields, the given page id and token, and the caller's dict object as `raw` |
| Events.Event.GetCallback | fb_messenger/event.py:63-71 | an event with a type answers with the shared registry's Lookup; an event whose type was never set is refused with ValueError listing the keys |
| Events.Event.Reply | fb_messenger/event.py:86-103 | posts ReplyBody for the sender id to ReplyUrl for the page token |
| Events.SharedRegistryScenario | fb_messenger/event.py:22 | a registration through the class-level manager rewrites the module-level defaults (callback_manager.py:34 keeps that dict), an event's lookup then sees the new handler, a bad arity and a non-callable handler are refused as the source's check order says |
| Events.Event.UserInfo | fb_messenger/event.py:73-83 | for a string sender id, requests UserInfoUrl with UserInfoParams |

## Left out

- HTTP: the `get` and `post` calls, and `req.json()` in `user_info`, are left out. `Reply` and `UserInfo` return the request they would send; the response is not modelled.
- Handler introspection: `getfullargspec` and `callable` are reduced to two fields of `Handler`, the positional-parameter count it would read (None when it finds no signature) and a callable flag. Keyword-only and variadic parameters are not modelled.
- Invoking handlers: only the default handler's behaviour (it returns its argument) is modelled. User handlers are opaque.
- Error messages: the text of the ValueError messages is not modelled. Only their data is kept: the requested type and the keys, in order.
- Callbacks.Register: distinguishes a bad arity (`ArityError`) from an unknown type (`UnknownEventType`); Python raises ValueError for both. `ExceptionName` maps both to "ValueError".
- Events.Event.UserInfo: returns no request when the sender id is not a JSON string, because Python's `str.format` rendering of other values is not modelled.
- Events.LoadModules: Dafny has no class-level mutable attributes, so the class-level `Event.callback_manager` is an explicit parameter of `Event.GetCallback`; `LoadModules` creates it as module import does.
- Events.Event: `sender_id`, `recipient_id`, `page_id` and `page_token` are immutable fields, because nothing in the library reassigns them after `__init__`.
- Events.Event.FromJson: creates the Event right after reading the ids, as the source does. The dict work goes through three helper methods, and the timestamp is stored after the pops rather than between them. Nothing can observe the difference.
- JSON objects: nested objects are member lists that may repeat a key, where `json.loads` keeps only the last one, and `Subscript` then answers the first. Nested values are immutable, so `content` and `raw[event_type]` are one value rather than one shared object.
- JSON: numbers are integers only; floating point is not modelled. Ids are kept as whatever JSON value the entry holds, as in Python, where the `str` annotation is not enforced.
- Concurrency: the shared registry is not thread-safe, and that is not modelled.
- `setup.py` is packaging metadata and holds no behaviour.
