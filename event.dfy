/** Webhook events: parsing one entry of a webhook notification into an Event,
    finding the event's handler in the shared registry, and the requests an
    event hands to the Graph API (the HTTP transport itself is not modelled). */
module Events {
  import opened Wrappers
  import opened Dicts
  import opened Json
  import opened Callbacks

  const GRAPH_URL: string := "graph.facebook.com/v2.6"
  const REPLY_URI: string := "/me/messages"

  /** The profile fields `user_info` asks for. The literal is continued with a
      backslash, so the next source line's 22 spaces of indentation are part of it. */
  const PROFILE_FIELDS: string :=
    "first_name,last_name,profile_pic," + "                      " + "locale,timezone,gender"

  /** The keys `from_json` takes out of the entry. */
  const Consumed: set<string> := {"sender", "recipient", "timestamp"}

  /** What `from_json` reads out of one webhook entry. */
  datatype Entry = Entry(
    senderId: Json,
    recipientId: Json,
    timestamp: Option<Json>,
    eventType: string,
    content: Json)

  /** A GET handed to the transport: the URL and the query parameters. */
  datatype GetRequest = GetRequest(url: string, params: seq<(string, string)>)

  /** A POST handed to the transport: the URL and the JSON body. */
  datatype PostRequest = PostRequest(url: string, body: Json)

  /** `json_data['sender']['id']` and then `json_data['recipient']['id']`,
      evaluated in that order; the first failure is the one raised. */
  function Ids(items: seq<(string, Json)>): (r: Result<(Json, Json)>)
    ensures !HasKey(items, "sender") ==> r == Err(KeyError("sender"))
    ensures (&& HasKey(items, "sender") && Subscript(Find(items, "sender").value, "id").Ok?
             && HasKey(items, "recipient") && Subscript(Find(items, "recipient").value, "id").Ok?)
            ==> r.Ok?
    ensures r.Ok? ==> HasKey(items, "sender") && HasKey(items, "recipient")
    ensures r.Ok? ==> && Subscript(Find(items, "sender").value, "id") == Ok(r.value.0)
                      && Subscript(Find(items, "recipient").value, "id") == Ok(r.value.1)
  {
    var sender :- Subscript(JObject(items), "sender");
    var senderId :- Subscript(sender, "id");
    var recipient :- Subscript(JObject(items), "recipient");
    var recipientId :- Subscript(recipient, "id");
    Ok((senderId, recipientId))
  }

  /** The entry once sender, recipient and (when present) timestamp are popped:
      none of them is left and every other key keeps its value. */
  function Stripped(items: seq<(string, Json)>): (r: seq<(string, Json)>)
    requires DistinctKeys(items)
    ensures DistinctKeys(r)
    ensures !HasKey(r, "sender") && !HasKey(r, "recipient") && !HasKey(r, "timestamp")
    ensures forall k :: k !in Consumed ==> Find(r, k) == Find(items, k)
  {
    Remove(Remove(Remove(items, "sender"), "recipient"), "timestamp")
  }

  /** The Event fields `from_json` sets from the entry, or the exception it
      raises. The event type is never a consumed key, and the content is the
      entry's value under it. */
  function ParseEntry(items: seq<(string, Json)>): (r: Result<Entry>)
    requires DistinctKeys(items)
    ensures r.Ok? ==> && r.value.eventType !in Consumed
                      && Find(items, r.value.eventType) == Some(r.value.content)
  {
    var (senderId, recipientId) :- Ids(items);
    var rest := Stripped(items);
    if rest == [] then Err(StopIteration)
    else
      assert Find(rest, rest[0].0) == Some(rest[0].1);
      Ok(Entry(senderId, recipientId, Find(items, "timestamp"), rest[0].0, rest[0].1))
  }

  /** ParseEntry once the ids are read and something is left. */
  lemma ParseEntrySucceeds(items: seq<(string, Json)>, e: Entry)
    requires DistinctKeys(items)
    requires Ids(items) == Ok((e.senderId, e.recipientId))
    requires e.timestamp == Find(items, "timestamp")
    requires Stripped(items) != [] && Stripped(items)[0].0 == e.eventType
    requires Find(Stripped(items), e.eventType) == Some(e.content)
    ensures ParseEntry(items) == Ok(e)
  {
    var rest := Stripped(items);
    assert rest[0].0 == e.eventType;
    assert Find(rest, e.eventType) == Some(rest[0].1);
  }

  /** The caller's dict after `from_json`: untouched when an id could not be
      read, stripped otherwise (also when no key is left and it then raises). */
  function AfterParse(items: seq<(string, Json)>): (r: seq<(string, Json)>)
    requires DistinctKeys(items)
    ensures DistinctKeys(r)
    ensures forall k :: k !in Consumed ==> Find(r, k) == Find(items, k)
    ensures Ids(items).Ok? ==> (&& Keys(r) == Omit(Keys(items), Consumed)
                                && forall k :: k in Consumed ==> Find(r, k) == None)
    ensures Ids(items).Err? ==> r == items
  {
    if Ids(items).Ok? then
      StrippedKeys(items);
      Stripped(items)
    else items
  }

  /** The members of the reply body. */
  function ReplyBody(senderId: Json, msg: Json): Json
  {
    JObject([("recipient", JObject([("id", senderId)])), ("message", msg)])
  }

  function ReplyUrl(pageToken: string): string
  {
    "https://" + GRAPH_URL + REPLY_URI + "?access_token=" + pageToken
  }

  function UserInfoUrl(senderId: string): string
  {
    "https://" + GRAPH_URL + "/" + senderId
  }

  function UserInfoParams(pageToken: string): seq<(string, string)>
  {
    [("fiels", PROFILE_FIELDS), ("access_token", pageToken)]
  }

  /** The residual dict keeps every key but the consumed ones, in their order. */
  lemma StrippedKeys(items: seq<(string, Json)>)
    requires DistinctKeys(items)
    ensures Keys(Stripped(items)) == Omit(Keys(items), Consumed)
    ensures DistinctKeys(Stripped(items))
    ensures forall k :: k in Consumed ==> Find(Stripped(items), k) == None
    ensures forall k :: k !in Consumed ==> Find(Stripped(items), k) == Find(items, k)
  {
    var ks := Keys(items);
    var r1 := Remove(items, "sender");
    var r2 := Remove(r1, "recipient");
    var r3 := Remove(r2, "timestamp");
    assert Stripped(items) == r3;
    OmitTwice(ks, {"sender"}, {"recipient"});
    assert Keys(r2) == Omit(ks, {"sender"} + {"recipient"});
    OmitTwice(ks, {"sender"} + {"recipient"}, {"timestamp"});
    assert {"sender"} + {"recipient"} + {"timestamp"} == Consumed;
    assert Keys(r3) == Omit(ks, Consumed);
  }

  /** A missing sender raises KeyError before anything is removed. */
  lemma ParseMissingSender(items: seq<(string, Json)>)
    requires DistinctKeys(items)
    requires !HasKey(items, "sender")
    ensures ParseEntry(items) == Err(KeyError("sender"))
    ensures AfterParse(items) == items
  {
  }

  /** With a readable sender id, a missing recipient raises KeyError, again
      before anything is removed. */
  lemma ParseMissingRecipient(items: seq<(string, Json)>)
    requires DistinctKeys(items)
    requires HasKey(items, "sender") && Subscript(Find(items, "sender").value, "id").Ok?
    requires !HasKey(items, "recipient")
    ensures ParseEntry(items) == Err(KeyError("recipient"))
    ensures AfterParse(items) == items
  {
  }

  /** Parsing succeeds exactly when both ids can be read and some key is left
      over; the ids are the nested `id` members and the timestamp is the
      entry's timestamp exactly when it has one. */
  lemma ParseReadsIds(items: seq<(string, Json)>)
    requires DistinctKeys(items)
    ensures ParseEntry(items).Ok? <==> Ids(items).Ok? && Omit(Keys(items), Consumed) != []
    ensures ParseEntry(items).Ok? ==>
      var e := ParseEntry(items).value;
      && Subscript(Find(items, "sender").value, "id") == Ok(e.senderId)
      && Subscript(Find(items, "recipient").value, "id") == Ok(e.recipientId)
      && (e.timestamp.Some? <==> HasKey(items, "timestamp"))
      && (e.timestamp.Some? ==> Find(items, "timestamp") == Some(e.timestamp.value))
  {
    StrippedKeys(items);
  }

  /** The event type is the first key of the entry other than the consumed
      ones, the content is that key's value, and the residual dict still holds
      both. */
  lemma ParseEventType(items: seq<(string, Json)>)
    requires DistinctKeys(items)
    requires ParseEntry(items).Ok?
    ensures var e := ParseEntry(items).value;
      && Omit(Keys(items), Consumed) != [] && Omit(Keys(items), Consumed)[0] == e.eventType
      && e.eventType !in Consumed
      && Find(items, e.eventType) == Some(e.content)
      && AfterParse(items) != [] && AfterParse(items)[0] == (e.eventType, e.content)
      && Find(AfterParse(items), e.eventType) == Some(e.content)
  {
    StrippedKeys(items);
    var rest := Stripped(items);
    assert Find(rest, rest[0].0) == Some(rest[0].1);
  }

  /** When nothing is left after the removals, `next` raises StopIteration, and
      the caller's dict has lost its consumed keys all the same. */
  lemma ParseNothingLeft(items: seq<(string, Json)>)
    requires DistinctKeys(items)
    requires Ids(items).Ok?
    requires Omit(Keys(items), Consumed) == []
    ensures ParseEntry(items) == Err(StopIteration)
    ensures AfterParse(items) == []
  {
    StrippedKeys(items);
  }

  /** An entry shaped as Messenger webhooks deliver it, with a timestamp and a message. */
  lemma ParseExample()
    ensures var items := [("sender", JObject([("id", JString("U1"))])),
                          ("recipient", JObject([("id", JString("P1"))])),
                          ("timestamp", JNumber(1000)),
                          ("message", JObject([("text", JString("hi"))]))];
      && DistinctKeys(items)
      && ParseEntry(items) == Ok(Entry(JString("U1"), JString("P1"), Some(JNumber(1000)),
                                       "message", JObject([("text", JString("hi"))])))
      && AfterParse(items) == [("message", JObject([("text", JString("hi"))]))]
  {
    var items := [("sender", JObject([("id", JString("U1"))])),
                  ("recipient", JObject([("id", JString("P1"))])),
                  ("timestamp", JNumber(1000)),
                  ("message", JObject([("text", JString("hi"))]))];
    assert Keys(items) == ["sender", "recipient", "timestamp", "message"];
    assert DistinctKeys(items);
    StrippedKeys(items);
    assert Omit(Keys(items), Consumed) == ["message"];
  }

  /** The reply goes to the recipient `{id: sender_id}` and carries the message
      unchanged, under exactly those two keys; the URL is the send endpoint
      with the page token as access token. */
  lemma ReplyShape(senderId: Json, pageToken: string, msg: Json)
    ensures Keys(ReplyBody(senderId, msg).members) == ["recipient", "message"]
    ensures Subscript(ReplyBody(senderId, msg), "message") == Ok(msg)
    ensures Subscript(ReplyBody(senderId, msg), "recipient") == Ok(JObject([("id", senderId)]))
    ensures ReplyUrl(pageToken) == "https://graph.facebook.com/v2.6/me/messages?access_token=" + pageToken
  {
    var members := ReplyBody(senderId, msg).members;
    assert members[1..] == [("message", msg)];
    assert members[1..][1..] == [];
    assert Find(members, "message") == Find(members[1..], "message");
    assert "https://" + GRAPH_URL == "https://graph.facebook.com/v2.6";
    assert "https://graph.facebook.com/v2.6" + REPLY_URI == "https://graph.facebook.com/v2.6/me/messages";
    assert "https://graph.facebook.com/v2.6/me/messages" + "?access_token="
        == "https://graph.facebook.com/v2.6/me/messages?access_token=";
  }

  /** Different page tokens give different reply URLs: the token can be read
      back from the URL. */
  lemma ReplyUrlDeterminesToken(t1: string, t2: string)
    requires ReplyUrl(t1) == ReplyUrl(t2)
    ensures t1 == t2
  {
    var n := |"https://" + GRAPH_URL + REPLY_URI + "?access_token="|;
    assert ReplyUrl(t1)[n..] == t1;
    assert ReplyUrl(t2)[n..] == t2;
  }

  /** The profile is requested at `{GRAPH_URL}/{sender_id}` with the (misspelled)
      `fiels` parameter and the page token. */
  lemma UserInfoShape(senderId: string, pageToken: string)
    ensures UserInfoUrl(senderId) == "https://graph.facebook.com/v2.6/" + senderId
    ensures Keys(UserInfoParams(pageToken)) == ["fiels", "access_token"]
    ensures Find(UserInfoParams(pageToken), "access_token") == Some(pageToken)
    ensures Find(UserInfoParams(pageToken), "fiels") == Some(PROFILE_FIELDS)
  {
    var ps := UserInfoParams(pageToken);
    assert ps[1..][1..] == [];
    assert "https://" + GRAPH_URL + "/" == "https://graph.facebook.com/v2.6/";
  }

  /** A reply to a parsed entry is addressed to the id of the entry's sender. */
  lemma ReplyGoesBackToSender(items: seq<(string, Json)>, msg: Json)
    requires DistinctKeys(items)
    requires ParseEntry(items).Ok?
    ensures var recipient := Subscript(ReplyBody(ParseEntry(items).value.senderId, msg), "recipient");
      && recipient.Ok?
      && Subscript(recipient.value, "id") == Subscript(Find(items, "sender").value, "id")
  {
    ParseReadsIds(items);
    var sid := ParseEntry(items).value.senderId;
    ReplyShape(sid, "", msg);
    assert Subscript(JObject([("id", sid)]), "id") == Ok(sid);
  }

  /** The effect of loading both modules: the module-level `default_callbacks`
      dict, and the class-level manager that holds that very dict. */
  method LoadModules() returns (defaults: Dict<Handler>, manager: CallbackManager)
    ensures fresh(defaults) && fresh(manager)
    ensures defaults.items == DefaultCallbacks()
    ensures manager.callbacks == defaults
    ensures manager.Valid()
  {
    DefaultRegistry();
    defaults := new Dict(DefaultCallbacks());
    manager := new CallbackManager(defaults);
  }

  /** `Event`. The class-level `callback_manager` is passed to the members
      that use it, since there are no class-level variables here. */
  class Event {
    const senderId: Json
    const recipientId: Json
    const pageId: string
    const pageToken: string
    var timestamp: Option<Json>
    var eventType: Option<string>
    var content: Option<Json>
    var raw: Dict?<Json>

    constructor (senderId: Json, recipientId: Json, pageId: string, pageToken: string)
      ensures this.senderId == senderId
      ensures this.recipientId == recipientId
      ensures this.pageId == pageId
      ensures this.pageToken == pageToken
      ensures timestamp == None && eventType == None && content == None && raw == null
    {
      this.senderId := senderId;
      this.recipientId := recipientId;
      this.pageId := pageId;
      this.pageToken := pageToken;
      timestamp := None;
      eventType := None;
      content := None;
      raw := null;
    }

    /** `json_data['sender']['id']` and `json_data['recipient']['id']`. */
    static method ReadIds(jsonData: Dict<Json>) returns (r: Result<(Json, Json)>)
      ensures r == Ids(jsonData.items)
    {
      var sender :- jsonData.Get("sender");
      var senderId :- Subscript(sender, "id");
      var recipient :- jsonData.Get("recipient");
      var recipientId :- Subscript(recipient, "id");
      r := Ok((senderId, recipientId));
    }

    /** `next(iter(json_data.keys()))` and the value under that key. */
    static method FirstEntry(jsonData: Dict<Json>) returns (r: Result<(string, Json)>)
      ensures r.Ok? <==> jsonData.items != []
      ensures r.Ok? ==> jsonData.items != [] && r.value == jsonData.items[0]
      ensures r.Err? ==> r.error == StopIteration
    {
      var first :- jsonData.FirstKey();
      var value := jsonData.Get(first);
      r := Ok((first, value.value));
    }

    /** The pops of `from_json`: sender, recipient and, when present,
        timestamp leave the dict; the timestamp's value is handed back. */
    static method PopConsumed(jsonData: Dict<Json>) returns (timestamp: Option<Json>)
      requires jsonData.Valid()
      requires HasKey(jsonData.items, "sender") && HasKey(jsonData.items, "recipient")
      modifies jsonData
      ensures jsonData.Valid()
      ensures jsonData.items == Stripped(old(jsonData.items))
      ensures timestamp == Find(old(jsonData.items), "timestamp")
    {
      ghost var items := jsonData.items;
      var _ := jsonData.Pop("sender");
      var _ := jsonData.Pop("recipient");
      var hasTimestamp := jsonData.Contains("timestamp");
      assert Find(jsonData.items, "timestamp") == Find(items, "timestamp");
      timestamp := None;
      if hasTimestamp {
        var ts := jsonData.Get("timestamp");
        timestamp := Some(ts.value);
        var _ := jsonData.Pop("timestamp");
      }
    }

    /** `from_json`: reads both ids, pops the consumed keys out of the caller's
        dict, takes its first remaining key as the event type and keeps the dict
        itself as `raw`. */
    static method FromJson(jsonData: Dict<Json>, pageId: string, pageToken: string)
      returns (r: Result<Event>)
      requires jsonData.Valid()
      modifies jsonData
      ensures jsonData.Valid()
      ensures jsonData.items == AfterParse(old(jsonData.items))
      ensures r.Err? ==> ParseEntry(old(jsonData.items)) == Err(r.error)
      ensures r.Ok? ==>
        && fresh(r.value) && r.value.raw == jsonData
        && r.value.pageId == pageId && r.value.pageToken == pageToken
        && r.value.eventType.Some? && r.value.content.Some?
        && ParseEntry(old(jsonData.items)) == Ok(Entry(r.value.senderId, r.value.recipientId,
             r.value.timestamp, r.value.eventType.value, r.value.content.value))
    {
      ghost var items := jsonData.items;
      var ids :- ReadIds(jsonData);
      var event := new Event(ids.0, ids.1, pageId, pageToken);
      var timestamp := PopConsumed(jsonData);
      event.timestamp := timestamp;
      var entry :- FirstEntry(jsonData);
      event.eventType := Some(entry.0);
      event.content := Some(entry.1);
      event.raw := jsonData;
      ParseEntrySucceeds(items, Entry(ids.0, ids.1, timestamp, entry.0, entry.1));
      r := Ok(event);
    }

    /** `get_callback`: the shared registry's handler for this event's type;
        an Event whose type was never set is refused like an unknown type. */
    method GetCallback(manager: CallbackManager) returns (r: Result<Handler>)
      ensures eventType.None? ==> r == Err(UnknownEventType(None, Keys(manager.callbacks.items)))
      ensures eventType.Some? ==> r == Lookup(manager.callbacks.items, eventType.value)
    {
      if eventType.None? {
        var available := manager.callbacks.KeyList();
        r := Err(UnknownEventType(None, available));
      } else {
        r := manager.GetCallback(eventType.value);
      }
    }

    /** `reply`: the request it posts. */
    method Reply(msg: Json) returns (req: PostRequest)
      ensures req.url == ReplyUrl(pageToken)
      ensures req.body == ReplyBody(senderId, msg)
    {
      var data := ReplyBody(senderId, msg);
      req := PostRequest(ReplyUrl(pageToken), data);
    }

    /** `user_info`: the request it sends, for a sender id that is a string. */
    method UserInfo() returns (req: Option<GetRequest>)
      ensures senderId.JString? ==> req == Some(GetRequest(UserInfoUrl(senderId.s), UserInfoParams(pageToken)))
      ensures !senderId.JString? ==> req == None
    {
      if senderId.JString? {
        req := Some(GetRequest(UserInfoUrl(senderId.s), UserInfoParams(pageToken)));
      } else {
        req := None;
      }
    }
  }

  /** Registering through the class-level manager rewrites the module-level
      defaults, and a lookup through an event then sees the new handler. */
  method SharedRegistryScenario()
  {
    var defaults, manager := LoadModules();
    var handler := UserCallback("on_message", Some(1), true);
    var o := manager.SetCallback(handler, "message");
    RegisterThenLookup(DefaultCallbacks(), handler, "message");
    assert o == Pass;
    assert Find(defaults.items, "message") == Some(handler);
    var e := new Event(JString("U1"), JString("P1"), "P1", "tok");
    e.eventType := Some("message");
    var h := e.GetCallback(manager);
    assert h == Ok(handler);
    var bad := manager.SetCallback(UserCallback("no_args", Some(0), true), "unknown");
    assert bad == Fail(ArityError);
    var notCallable := manager.SetCallback(UserCallback("not_a_function", None, false), "message");
    assert notCallable == Fail(UnsupportedCallable);
  }
}
