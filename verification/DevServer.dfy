/**
 * The development server that stands in for OBS: it answers the obs-websocket
 * 5 handshake without checking any password, keeps persistent-data slots in
 * memory and fans custom events out to every open client.
 */
module DevServer {
  import opened Wrappers
  import opened JsValue
  import opened Protocol

  /** A client socket, compared by identity. */
  datatype Conn = Conn(id: nat)

  /** One `send` of a frame to a socket. */
  datatype Delivery = Delivery(to: Conn, frame: ServerMessage)

  /** `generateChallenge()`: the same fixed challenge and salt for every client. */
  const DevChallenge := Challenge("devchallengestring", "devsaltstring")

  const HelloFrame := Hello("5.0.0", 1, Some(DevChallenge))

  const SuccessStatus := RequestStatus(true, 100, "Success")

  const UnknownTypeCode := 203

  const EmptyObject: Value := Obj(map[])

  // ---------------------------------------------------------------------
  // Persistent-data slots
  // ---------------------------------------------------------------------

  /** The template literal `${realm}:${slotName}`. */
  function SlotKey(realm: Value, slotName: Value): string {
    ToStr(realm) + ":" + ToStr(slotName)
  }

  /** Keys are unambiguous as long as the realm's string form has no colon. */
  lemma {:induction false} SlotKeyInjective(realm1: Value, slot1: Value, realm2: Value, slot2: Value)
    requires ':' !in ToStr(realm1) && ':' !in ToStr(realm2)
    requires SlotKey(realm1, slot1) == SlotKey(realm2, slot2)
    ensures ToStr(realm1) == ToStr(realm2) && ToStr(slot1) == ToStr(slot2)
  {
    ColonSplit(ToStr(realm1), ToStr(slot1), ToStr(realm2), ToStr(slot2));
  }

  /** The first colon of `a:s` sits right after `a` when `a` has none. */
  lemma ColonSplit(a: string, s: string, b: string, t: string)
    requires ':' !in a && ':' !in b
    requires a + ":" + s == b + ":" + t
    ensures a == b && s == t
  {
    var k := a + ":" + s;
    FirstColon(a, s);
    FirstColon(b, t);
    if |a| != |b| {
      assert false;
    }
    assert a == k[..|a|] == b;
    assert s == k[|a| + 1..] == t;
  }

  lemma FirstColon(a: string, s: string)
    requires ':' !in a
    ensures (a + ":" + s)[|a|] == ':'
    ensures forall i | 0 <= i < |a| :: (a + ":" + s)[i] != ':'
  {
    forall i | 0 <= i < |a|
      ensures (a + ":" + s)[i] != ':'
    {
      assert (a + ":" + s)[i] == a[i];
    }
  }

  /** Different slots can share a key: a colon in the realm, or a number and its decimal string. */
  lemma SlotKeyCollisions()
    ensures SlotKey(Str("a:b"), Str("c")) == SlotKey(Str("a"), Str("b:c"))
    ensures SlotKey(Num(7), Str("s")) == SlotKey(Str("7"), Str("s"))
  {
  }

  // ---------------------------------------------------------------------
  // Broadcast
  // ---------------------------------------------------------------------

  /**
   * The sends of `broadcast(frame, sender)`: every client of the set, in
   * insertion order, that is not the sender and whose socket is open.
   */
  function Fanout(clients: seq<Conn>, readyOpen: set<Conn>, sender: Option<Conn>, frame: ServerMessage): seq<Delivery> {
    if clients == [] then []
    else
      var last := clients[|clients| - 1];
      var earlier := Fanout(clients[..|clients| - 1], readyOpen, sender, frame);
      if last in readyOpen && sender != Some(last) then earlier + [Delivery(last, frame)] else earlier
  }

  /**
   * `broadcast` sends the frame only to open clients of the set other than
   * the sender, at most one send per client entry, and reaches every such client.
   */
  lemma {:induction false} FanoutSends(clients: seq<Conn>, readyOpen: set<Conn>, sender: Option<Conn>, frame: ServerMessage)
    ensures var r := Fanout(clients, readyOpen, sender, frame);
      && |r| <= |clients|
      && (forall d | d in r :: d.frame == frame && d.to in clients && d.to in readyOpen && sender != Some(d.to))
      && (forall c | c in clients && c in readyOpen && sender != Some(c) :: Delivery(c, frame) in r)
  {
    if clients != [] {
      var last := clients[|clients| - 1];
      FanoutSends(clients[..|clients| - 1], readyOpen, sender, frame);
      assert forall c | c in clients :: c in clients[..|clients| - 1] || c == last;
    }
  }

  /** One more client of the set considered by `broadcast`. */
  lemma FanoutStep(clients: seq<Conn>, readyOpen: set<Conn>, sender: Option<Conn>, frame: ServerMessage, i: nat)
    requires i < |clients|
    ensures Fanout(clients[..i + 1], readyOpen, sender, frame)
         == Fanout(clients[..i], readyOpen, sender, frame)
            + if clients[i] in readyOpen && sender != Some(clients[i]) then [Delivery(clients[i], frame)] else []
  {
    assert clients[..i + 1][..i] == clients[..i];
  }

  /** The frames socket c is sent, in order. */
  function DeliveredTo(sent: seq<Delivery>, c: Conn): seq<ServerMessage> {
    if sent == [] then []
    else
      var earlier := DeliveredTo(sent[..|sent| - 1], c);
      if sent[|sent| - 1].to == c then earlier + [sent[|sent| - 1].frame] else earlier
  }

  lemma {:induction false} DeliveredToAppend(a: seq<Delivery>, b: seq<Delivery>, c: Conn)
    ensures DeliveredTo(a + b, c) == DeliveredTo(a, c) + DeliveredTo(b, c)
    decreases |b|
  {
    if b != [] {
      assert (a + b)[..|a + b| - 1] == a + b[..|b| - 1];
      DeliveredToAppend(a, b[..|b| - 1], c);
    } else {
      assert a + b == a;
    }
  }

  /** With no client in the set twice, each open non-sender client gets exactly one copy, the rest none. */
  lemma {:induction false} FanoutOnce(clients: seq<Conn>, readyOpen: set<Conn>, sender: Option<Conn>, frame: ServerMessage, c: Conn)
    requires Distinct(clients)
    ensures DeliveredTo(Fanout(clients, readyOpen, sender, frame), c)
         == if c in clients && c in readyOpen && sender != Some(c) then [frame] else []
    decreases |clients|
  {
    if clients != [] {
      var init := clients[..|clients| - 1];
      var last := clients[|clients| - 1];
      assert Distinct(init);
      FanoutOnce(init, readyOpen, sender, frame, c);
      var earlier := Fanout(init, readyOpen, sender, frame);
      if last in readyOpen && sender != Some(last) {
        DeliveredToAppend(earlier, [Delivery(last, frame)], c);
        assert DeliveredTo([Delivery(last, frame)], c) == if last == c then [frame] else [] by {
          assert [Delivery(last, frame)][..0] == [];
        }
      }
      if c == last {
        assert c !in init;
      }
      assert c in clients <==> c in init || c == last;
    }
  }

  // ---------------------------------------------------------------------
  // Message handling
  // ---------------------------------------------------------------------

  /** The parsed message is a Request (op 6) of the given type. */
  predicate IsRequestOf(message: Option<Value>, requestType: string) {
    message.Some? && Field(message.value, "op") == Num(OpRequest)
    && Field(Field(message.value, "d"), "requestType") == Str(requestType)
  }

  /** The CustomEvent frame a BroadcastCustomEvent request fans out. */
  function CustomEvent(eventData: Value): ServerMessage {
    Event(EventData("CustomEvent", 0, eventData))
  }

  /** The new slot store and the sends, in order, of handling one message. */
  datatype Outcome = Outcome(store: map<string, Value>, sent: seq<Delivery>)

  /**
   * `handleMessage(ws, message)`, where `message` is None when JSON.parse
   * throws. Every TypeError is caught: the store and the sends up to the
   * throw are what remains. The one throw that can follow sends (logging
   * the `eventName` of a missing `eventData` after a broadcast) changes
   * nothing further.
   */
  function Handle(store: map<string, Value>, clients: seq<Conn>, readyOpen: set<Conn>, ws: Conn, message: Option<Value>): (r: Outcome)
    // a malformed message is ignored
    ensures message.None? ==> r == Outcome(store, [])
    // Identify is accepted whatever it carries
    ensures message.Some? && Field(message.value, "op") == Num(OpIdentify) ==>
      r == Outcome(store, [Delivery(ws, Identified(1))])
    // only a Request ever writes, and only SetPersistentData
    ensures !IsRequestOf(message, SetType) ==> r.store == store
    // `msg.op` of null throws; any op other than 1 and 6 is only logged
    ensures message.Some? && Nullish(message.value) ==> r == Outcome(store, [])
    ensures message.Some? && !Nullish(message.value)
            && Field(message.value, "op") != Num(OpIdentify) && Field(message.value, "op") != Num(OpRequest)
            ==> r == Outcome(store, [])
  {
    if message.None? then Outcome(store, [])
    else
      var msg := message.value;
      if Nullish(msg) then Outcome(store, [])
      else
        var op := Prop(msg, "op").value;
        if op == Num(OpIdentify) then Outcome(store, [Delivery(ws, Identified(1))])
        else if op == Num(OpRequest) then HandleRequest(store, clients, readyOpen, ws, Prop(msg, "d").value)
        else Outcome(store, [])
  }

  /**
   * Only the broadcast event goes to another socket, and a response goes to
   * the requester and echoes the request's type and id.
   */
  lemma HandleSends(store: map<string, Value>, clients: seq<Conn>, readyOpen: set<Conn>, ws: Conn, message: Option<Value>)
    ensures var r := Handle(store, clients, readyOpen, ws, message);
      && (forall d | d in r.sent && d.to != ws :: d.frame.Event? && d.frame == CustomEvent(d.frame.event.eventData))
      && (forall d | d in r.sent && d.frame.RequestResponse? :: message.Some? && IsReplyTo(d, ws, Field(message.value, "d")))
  {
    var r := Handle(store, clients, readyOpen, ws, message);
    if message.Some? && !Nullish(message.value) {
      var msg := message.value;
      var op := Prop(msg, "op").value;
      if op == Num(OpIdentify) {
        assert r.sent == [Delivery(ws, Identified(1))];
      } else if op == Num(OpRequest) {
        var d := Prop(msg, "d").value;
        assert Field(msg, "d") == d;
        assert r == HandleRequest(store, clients, readyOpen, ws, d);
        RequestSends(store, clients, readyOpen, ws, d);
      } else {
        assert r.sent == [];
      }
    }
  }


  /**
   * A response to the request payload `d` sent to `ws`: it echoes the
   * request's type and id, succeeds with code 100 exactly for the three
   * known types and otherwise fails with code 203.
   */
  predicate IsReplyTo(delivery: Delivery, ws: Conn, d: Value)
    requires delivery.frame.RequestResponse?
  {
    var f := delivery.frame;
    && delivery.to == ws
    && f.requestType == Field(d, "requestType")
    && f.requestId == Field(d, "requestId")
    && (f.requestStatus == SuccessStatus <==> KnownRequestType(f.requestType))
    && (!KnownRequestType(f.requestType) ==>
          f.requestStatus == RequestStatus(false, UnknownTypeCode, "Unknown request type: " + ToStr(f.requestType)))
  }

  const SetType := "SetPersistentData"
  const GetType := "GetPersistentData"
  const BroadcastType := "BroadcastCustomEvent"

  lemma RequestTypesDiffer()
    ensures SetType != GetType && SetType != BroadcastType && GetType != BroadcastType
  {
    assert SetType[0] != GetType[0];
    assert |SetType| != |BroadcastType| && |GetType| != |BroadcastType|;
  }

  predicate KnownRequestType(t: Value) {
    t == Str(SetType) || t == Str(GetType) || t == Str(BroadcastType)
  }

  /** Case 6 of `handleMessage`, given `msg.d`. */
  function HandleRequest(store: map<string, Value>, clients: seq<Conn>, readyOpen: set<Conn>, ws: Conn, d: Value): (r: Outcome)
    ensures Field(d, "requestType") != Str(SetType) ==> r.store == store
  {
    if Nullish(d) then Outcome(store, [])
    else
      var requestType := Prop(d, "requestType").value;
      var requestData := Prop(d, "requestData").value;
      if KnownRequestType(requestType) && Nullish(requestData) then Outcome(store, [])
      else if requestType == Str(SetType) then SetSlot(store, ws, d)
      else if requestType == Str(GetType) then GetSlot(store, ws, d)
      else if requestType == Str(BroadcastType) then BroadcastEvent(store, clients, readyOpen, ws, d)
      else UnknownRequest(store, ws, d)
  }

  /** A message adds at most one key to the store and removes none. */
  lemma HandleAddsOneKey(store: map<string, Value>, clients: seq<Conn>, readyOpen: set<Conn>, ws: Conn, message: Option<Value>)
    ensures var r := Handle(store, clients, readyOpen, ws, message);
      r.store.Keys >= store.Keys && |r.store.Keys - store.Keys| <= 1
  {
    var r := Handle(store, clients, readyOpen, ws, message);
    if message.Some? && !Nullish(message.value) && Prop(message.value, "op").value == Num(OpRequest) {
      var d := Prop(message.value, "d").value;
      assert r == HandleRequest(store, clients, readyOpen, ws, d);
      var requestData := Field(d, "requestData");
      if !Nullish(d) && Field(d, "requestType") == Str(SetType) && !Nullish(requestData) {
        assert r == SetSlot(store, ws, d);
        UpdateAddsOneKey(store, SlotKey(Field(requestData, "realm"), Field(requestData, "slotName")), Field(requestData, "slotValue"));
      }
    }
  }

  lemma UpdateAddsOneKey(m: map<string, Value>, k: string, v: Value)
    ensures m[k := v].Keys >= m.Keys && |m[k := v].Keys - m.Keys| <= 1
  {
    assert m[k := v].Keys - m.Keys <= {k};
  }

  /** The same for the payload of a Request. */
  lemma RequestSends(store: map<string, Value>, clients: seq<Conn>, readyOpen: set<Conn>, ws: Conn, d: Value)
    ensures var r := HandleRequest(store, clients, readyOpen, ws, d);
      && (forall x | x in r.sent && x.to != ws :: x.frame.Event? && x.frame == CustomEvent(x.frame.event.eventData))
      && (forall x | x in r.sent && x.frame.RequestResponse? :: IsReplyTo(x, ws, d))
  {
    var r := HandleRequest(store, clients, readyOpen, ws, d);
    if !Nullish(d) {
      var requestType := Prop(d, "requestType").value;
      var requestData := Prop(d, "requestData").value;
      RequestTypesDiffer();
      if KnownRequestType(requestType) && Nullish(requestData) {
        assert r.sent == [];
      } else if requestType == Str(SetType) {
        assert r == SetSlot(store, ws, d);
        SingleReply(r.sent, ws, d);
      } else if requestType == Str(GetType) {
        assert r == GetSlot(store, ws, d);
        SingleReply(r.sent, ws, d);
      } else if requestType == Str(BroadcastType) {
        assert r == BroadcastEvent(store, clients, readyOpen, ws, d);
        BroadcastEventSends(store, clients, readyOpen, ws, d);
      } else {
        assert r == UnknownRequest(store, ws, d);
        SingleReply(r.sent, ws, d);
      }
    }
  }

  /** A single send that is a reply to `d`. */
  lemma SingleReply(sent: seq<Delivery>, ws: Conn, d: Value)
    requires |sent| == 1 && sent[0].frame.RequestResponse? && IsReplyTo(sent[0], ws, d)
    ensures forall x | x in sent && x.to != ws :: x.frame.Event? && x.frame == CustomEvent(x.frame.event.eventData)
    ensures forall x | x in sent && x.frame.RequestResponse? :: IsReplyTo(x, ws, d)
  {
    assert sent == [sent[0]];
  }


  /** The response `handleMessage` sends for request payload d. */
  function Response(ws: Conn, d: Value, status: RequestStatus, responseData: Value): (x: Delivery)
    requires !Nullish(d)
    ensures x.frame.RequestResponse? && x.to == ws
    ensures x.frame.requestType == Field(d, "requestType") && x.frame.requestId == Field(d, "requestId")
  {
    Delivery(ws, RequestResponse(Prop(d, "requestType").value, Prop(d, "requestId").value, status, responseData))
  }

  /** Case 'SetPersistentData': stores slotValue (possibly undefined) under the slot's key. */
  function SetSlot(store: map<string, Value>, ws: Conn, d: Value): (r: Outcome)
    requires !Nullish(d) && Field(d, "requestType") == Str(SetType) && !Nullish(Field(d, "requestData"))
    // the slot's key now holds slotValue; every other key keeps its value
    ensures var requestData := Field(d, "requestData");
      r.store == store[SlotKey(Field(requestData, "realm"), Field(requestData, "slotName")) := Field(requestData, "slotValue")]
    ensures |r.sent| == 1 && r.sent[0].frame.RequestResponse? && IsReplyTo(r.sent[0], ws, d)
    ensures r.sent[0].frame.responseData == EmptyObject
  {
    var requestData := Prop(d, "requestData").value;
    var key := SlotKey(Prop(requestData, "realm").value, Prop(requestData, "slotName").value);
    RequestTypesDiffer();
    Outcome(store[key := Prop(requestData, "slotValue").value], [Response(ws, d, SuccessStatus, EmptyObject)])
  }

  /** Case 'GetPersistentData': answers `{ slotValue: value || null }`. */
  function GetSlot(store: map<string, Value>, ws: Conn, d: Value): (r: Outcome)
    requires !Nullish(d) && Field(d, "requestType") == Str(GetType) && !Nullish(Field(d, "requestData"))
    ensures r.store == store
    ensures |r.sent| == 1 && r.sent[0].frame.RequestResponse? && IsReplyTo(r.sent[0], ws, d)
    // `value || null`: a never-written key or a falsy value reads as null
    ensures var requestData := Field(d, "requestData");
      var key := SlotKey(Field(requestData, "realm"), Field(requestData, "slotName"));
      r.sent[0].frame.responseData
        == Obj(map["slotValue" := if key in store && Truthy(store[key]) then store[key] else Null])
  {
    var requestData := Prop(d, "requestData").value;
    var key := SlotKey(Prop(requestData, "realm").value, Prop(requestData, "slotName").value);
    var value := if key in store then store[key] else Undefined;
    RequestTypesDiffer();
    Outcome(store, [Response(ws, d, SuccessStatus, Obj(map["slotValue" := Or(value, Null)]))])
  }

  /**
   * Case 'BroadcastCustomEvent': the event goes to every open client (the
   * requester included), then once more to the requester, then the response.
   */
  function BroadcastEvent(store: map<string, Value>, clients: seq<Conn>, readyOpen: set<Conn>, ws: Conn, d: Value): (r: Outcome)
    requires !Nullish(d) && Field(d, "requestType") == Str(BroadcastType) && !Nullish(Field(d, "requestData"))
    ensures r.store == store
  {
    var event := CustomEvent(Field(Field(d, "requestData"), "eventData"));
    Outcome(store, Fanout(clients, readyOpen, None, event) + [Delivery(ws, event), Response(ws, d, SuccessStatus, EmptyObject)])
  }

  /** Only the CustomEvent reaches other clients, and the one response is a success echoing the request. */
  lemma BroadcastEventSends(store: map<string, Value>, clients: seq<Conn>, readyOpen: set<Conn>, ws: Conn, d: Value)
    requires !Nullish(d) && Field(d, "requestType") == Str(BroadcastType) && !Nullish(Field(d, "requestData"))
    ensures var r := BroadcastEvent(store, clients, readyOpen, ws, d);
      && (forall x | x in r.sent && x.to != ws :: x.frame.Event? && x.frame == CustomEvent(x.frame.event.eventData))
      && (forall x | x in r.sent && x.frame.RequestResponse? :: IsReplyTo(x, ws, d))
  {
    var event := CustomEvent(Field(Field(d, "requestData"), "eventData"));
    var fanned := Fanout(clients, readyOpen, None, event);
    FanoutSends(clients, readyOpen, None, event);
    RequestTypesDiffer();
    var reply := Response(ws, d, SuccessStatus, EmptyObject);
    assert forall x | x in fanned + [Delivery(ws, event), reply] :: x in fanned || x == Delivery(ws, event) || x == reply;
  }

  /** The default case: code 203 and a comment naming the type. */
  function UnknownRequest(store: map<string, Value>, ws: Conn, d: Value): (r: Outcome)
    requires !Nullish(d) && !KnownRequestType(Field(d, "requestType"))
    ensures r.store == store
    ensures |r.sent| == 1 && r.sent[0].frame.RequestResponse? && IsReplyTo(r.sent[0], ws, d)
  {
    var comment := "Unknown request type: " + ToStr(Prop(d, "requestType").value);
    Outcome(store, [Response(ws, d, RequestStatus(false, UnknownTypeCode, comment), EmptyObject)])
  }

  /** The parsed form of a Request frame `{ op: 6, d: { requestType, requestId, requestData } }`. */
  function RequestFrame(requestType: string, requestId: Value, requestData: Value): Value {
    Obj(map["op" := Num(OpRequest),
            "d" := Obj(map["requestType" := Str(requestType), "requestId" := requestId, "requestData" := requestData])])
  }

  /**
   * The client's frames as the server parses them: its Identify is answered
   * with Identified whatever authentication it carries, and its Request is a
   * Request frame with the id as a string.
   */
  lemma ClientFrames(store: map<string, Value>, clients: seq<Conn>, readyOpen: set<Conn>, ws: Conn,
                     auth: Option<string>, requestType: string, requestId: string, requestData: Value)
    ensures Handle(store, clients, readyOpen, ws, Some(ToValue(ClientMessage.Identify(1, 33, auth))))
         == Outcome(store, [Delivery(ws, Identified(1))])
    ensures ToValue(ClientMessage.Request(requestType, requestId, requestData))
         == RequestFrame(requestType, Str(requestId), requestData)
  {
    assert Field(ToValue(ClientMessage.Identify(1, 33, auth)), "op") == Num(OpIdentify);
  }

  /** The field names of a request payload differ. */
  lemma PayloadKeysDiffer()
    ensures "requestType" != "requestId" && "requestType" != "requestData" && "requestId" != "requestData"
  {
    assert "requestType"[7] != "requestData"[7];
  }

  function SlotRef(realm: Value, slotName: Value): map<string, Value> {
    map["realm" := realm, "slotName" := slotName]
  }

  /** Handling a Request frame is handling its payload. */
  lemma HandleRequestFrame(store: map<string, Value>, clients: seq<Conn>, readyOpen: set<Conn>, ws: Conn,
                           requestType: string, requestId: Value, requestData: Value)
    ensures var d := Field(RequestFrame(requestType, requestId, requestData), "d");
      && d == Obj(map["requestType" := Str(requestType), "requestId" := requestId, "requestData" := requestData])
      && Field(d, "requestType") == Str(requestType) && Field(d, "requestId") == requestId
      && Field(d, "requestData") == requestData
      && Handle(store, clients, readyOpen, ws, Some(RequestFrame(requestType, requestId, requestData)))
         == HandleRequest(store, clients, readyOpen, ws, d)
  {
    PayloadKeysDiffer();
    var m := RequestFrame(requestType, requestId, requestData);
    assert Prop(m, "op") == Ok(Num(OpRequest));
    assert OpRequest != OpIdentify;
  }

  /**
   * A slot written by SetPersistentData reads back through GetPersistentData,
   * from any client, as `slotValue || null`; a falsy value reads back as null.
   */
  lemma SetThenGet(store: map<string, Value>, clients: seq<Conn>, readyOpen: set<Conn>,
                   writer: Conn, reader: Conn, realm: Value, slotName: Value, slotValue: Value,
                   setId: Value, getId: Value)
    ensures var written := Handle(store, clients, readyOpen, writer,
                                  Some(RequestFrame(SetType, setId, Obj(SlotRef(realm, slotName)["slotValue" := slotValue]))));
            var read := Handle(written.store, clients, readyOpen, reader,
                               Some(RequestFrame(GetType, getId, Obj(SlotRef(realm, slotName)))));
            && read.store == written.store
            && read.sent == [Delivery(reader, RequestResponse(Str(GetType), getId, SuccessStatus,
                                                             Obj(map["slotValue" := Or(slotValue, Null)])))]
  {
    RequestTypesDiffer();
    var key := SlotKey(realm, slotName);
    var setData := Obj(SlotRef(realm, slotName)["slotValue" := slotValue]);
    var getData := Obj(SlotRef(realm, slotName));
    assert Field(setData, "realm") == realm && Field(setData, "slotName") == slotName;
    assert Field(setData, "slotValue") == slotValue;
    assert Field(getData, "realm") == realm && Field(getData, "slotName") == slotName;
    HandleRequestFrame(store, clients, readyOpen, writer, SetType, setId, setData);
    var setD := Field(RequestFrame(SetType, setId, setData), "d");
    var written := SetSlot(store, writer, setD);
    assert written.store == store[key := slotValue];
    HandleRequestFrame(written.store, clients, readyOpen, reader, GetType, getId, getData);
    var getD := Field(RequestFrame(GetType, getId, getData), "d");
    var read := GetSlot(written.store, reader, getD);
    assert read.sent == [Response(reader, getD, SuccessStatus, Obj(map["slotValue" := Or(slotValue, Null)]))];
  }

  /**
   * BroadcastCustomEvent: every other open client in the set gets the event
   * once; the requester gets it once more than that, then the response.
   */
  lemma BroadcastDeliveries(store: map<string, Value>, clients: seq<Conn>, readyOpen: set<Conn>,
                            ws: Conn, requestId: Value, requestData: Value, c: Conn)
    requires Distinct(clients) && !Nullish(requestData)
    ensures var r := Handle(store, clients, readyOpen, ws, Some(RequestFrame(BroadcastType, requestId, requestData)));
            var event := CustomEvent(Field(requestData, "eventData"));
            var reply := RequestResponse(Str(BroadcastType), requestId, SuccessStatus, EmptyObject);
            var fanned := if c in clients && c in readyOpen then [event] else [];
            && r.store == store
            && DeliveredTo(r.sent, c) == if c == ws then fanned + [event, reply] else fanned
  {
    var event := CustomEvent(Field(requestData, "eventData"));
    var reply := RequestResponse(Str(BroadcastType), requestId, SuccessStatus, EmptyObject);
    var own := [Delivery(ws, event), Delivery(ws, reply)];
    var fanned := Fanout(clients, readyOpen, None, event);
    BroadcastSent(store, clients, readyOpen, ws, requestId, requestData);
    FanoutOnce(clients, readyOpen, None, event, c);
    DeliveredToAppend(fanned, own, c);
    DeliveredToPair(Delivery(ws, event), Delivery(ws, reply), c);
  }

  /** The sends of a BroadcastCustomEvent request: the fan-out, then the event and the response to the requester. */
  lemma BroadcastSent(store: map<string, Value>, clients: seq<Conn>, readyOpen: set<Conn>,
                      ws: Conn, requestId: Value, requestData: Value)
    requires !Nullish(requestData)
    ensures var event := CustomEvent(Field(requestData, "eventData"));
            var reply := RequestResponse(Str(BroadcastType), requestId, SuccessStatus, EmptyObject);
            Handle(store, clients, readyOpen, ws, Some(RequestFrame(BroadcastType, requestId, requestData)))
            == Outcome(store, Fanout(clients, readyOpen, None, event) + [Delivery(ws, event), Delivery(ws, reply)])
  {
    RequestTypesDiffer();
    HandleRequestFrame(store, clients, readyOpen, ws, BroadcastType, requestId, requestData);
    var d := Field(RequestFrame(BroadcastType, requestId, requestData), "d");
    var reply := RequestResponse(Str(BroadcastType), requestId, SuccessStatus, EmptyObject);
    assert Response(ws, d, SuccessStatus, EmptyObject) == Delivery(ws, reply);
  }

  /** What socket c is sent out of two sends. */
  lemma DeliveredToPair(x: Delivery, y: Delivery, c: Conn)
    ensures DeliveredTo([x, y], c) == (if x.to == c then [x.frame] else []) + (if y.to == c then [y.frame] else [])
  {
    assert [x, y][..1] == [x] && [x][..0] == [];
    assert DeliveredTo([x], c) == if x.to == c then [x.frame] else [];
  }


  // ---------------------------------------------------------------------
  // The server's state
  // ---------------------------------------------------------------------

  /** `clients.delete(ws)` on the set's insertion-ordered contents. */
  function Without(s: seq<Conn>, x: Conn): (r: seq<Conn>)
    ensures forall y :: y in r <==> y in s && y != x
    ensures |r| <= |s|
    ensures Distinct(s) ==> Distinct(r)
  {
    if s == [] then []
    else
      var earlier := Without(s[..|s| - 1], x);
      var last := s[|s| - 1];
      assert forall y | y in s :: y in s[..|s| - 1] || y == last;
      if last == x then earlier
      else
        assert Distinct(s) ==> Distinct(s[..|s| - 1]) && last !in s[..|s| - 1];
        DistinctAppend(earlier, last);
        earlier + [last]
  }

  lemma DistinctAppend<T>(s: seq<T>, x: T)
    ensures Distinct(s) && x !in s ==> Distinct(s + [x])
  {
  }

  class DevServer {
    var persistentData: map<string, Value>
    /** The `clients` set, in insertion order. */
    var clients: seq<Conn>
    /** Every frame sent so far, in order. */
    var outbox: seq<Delivery>

    ghost predicate Valid()
      reads this
    {
      Distinct(clients)
    }

    constructor ()
      ensures Valid() && persistentData == map[] && clients == [] && outbox == []
    {
      persistentData := map[];
      clients := [];
      outbox := [];
    }

    /** `broadcast(message, senderWs)`; `readyOpen` are the sockets whose readyState is OPEN. */
    method Broadcast(frame: ServerMessage, sender: Option<Conn>, readyOpen: set<Conn>)
      modifies this`outbox
      ensures outbox == old(outbox) + Fanout(clients, readyOpen, sender, frame)
    {
      for i := 0 to |clients|
        invariant outbox == old(outbox) + Fanout(clients[..i], readyOpen, sender, frame)
      {
        var client := clients[i];
        FanoutStep(clients, readyOpen, sender, frame, i);
        if Some(client) != sender && client in readyOpen {
          outbox := outbox + [Delivery(client, frame)];
        }
      }
      assert clients[..|clients|] == clients;
    }

    /** `handleMessage(ws, message)` */
    method HandleMessage(ws: Conn, message: Option<Value>, readyOpen: set<Conn>)
      modifies this`persistentData, this`outbox
      ensures var r := Handle(old(persistentData), clients, readyOpen, ws, message);
        persistentData == r.store && outbox == old(outbox) + r.sent
    {
      if message.None? || Nullish(message.value) {
        return;
      }
      var msg := message.value;
      var op := Prop(msg, "op").value;
      if op == Num(OpIdentify) {
        outbox := outbox + [Delivery(ws, Identified(1))];
      } else if op == Num(OpRequest) {
        HandleRequestPayload(ws, Prop(msg, "d").value, readyOpen);
      }
    }

    /** Case 6 of `handleMessage`, given `msg.d`. */
    method HandleRequestPayload(ws: Conn, d: Value, readyOpen: set<Conn>)
      modifies this`persistentData, this`outbox
      ensures var r := HandleRequest(old(persistentData), clients, readyOpen, ws, d);
        persistentData == r.store && outbox == old(outbox) + r.sent
    {
      RequestTypesDiffer();
      if Nullish(d) {
        return;
      }
      var requestType := Prop(d, "requestType").value;
      var requestId := Prop(d, "requestId").value;
      var requestData := Prop(d, "requestData").value;
      if requestType == Str(SetType) {
        if Nullish(requestData) {
          return;
        }
        var key := SlotKey(Prop(requestData, "realm").value, Prop(requestData, "slotName").value);
        persistentData := persistentData[key := Prop(requestData, "slotValue").value];
        outbox := outbox + [Delivery(ws, RequestResponse(requestType, requestId, SuccessStatus, EmptyObject))];
      } else if requestType == Str(GetType) {
        if Nullish(requestData) {
          return;
        }
        var key := SlotKey(Prop(requestData, "realm").value, Prop(requestData, "slotName").value);
        var value := if key in persistentData then persistentData[key] else Undefined;
        outbox := outbox + [Delivery(ws, RequestResponse(requestType, requestId, SuccessStatus,
                                                         Obj(map["slotValue" := Or(value, Null)])))];
      } else if requestType == Str(BroadcastType) {
        if Nullish(requestData) {
          return;
        }
        var event := CustomEvent(Prop(requestData, "eventData").value);
        Broadcast(event, None, readyOpen);
        outbox := outbox + [Delivery(ws, event)];
        outbox := outbox + [Delivery(ws, RequestResponse(requestType, requestId, SuccessStatus, EmptyObject))];
      } else {
        var comment := "Unknown request type: " + ToStr(requestType);
        outbox := outbox + [Delivery(ws, RequestResponse(requestType, requestId,
                                                         RequestStatus(false, UnknownTypeCode, comment), EmptyObject))];
      }
    }

    /** The `open` handler: adds the socket to the set and greets it with Hello. */
    method Open(ws: Conn)
      requires Valid()
      modifies this`clients, this`outbox
      ensures Valid()
      ensures clients == if ws in old(clients) then old(clients) else old(clients) + [ws]
      ensures outbox == old(outbox) + [Delivery(ws, HelloFrame)]
    {
      if ws !in clients {
        clients := clients + [ws];
      }
      outbox := outbox + [Delivery(ws, HelloFrame)];
    }

    /** The `close` handler. */
    method Close(ws: Conn)
      requires Valid()
      modifies this`clients
      ensures Valid()
      ensures clients == Without(old(clients), ws)
      ensures forall c :: c in clients <==> c in old(clients) && c != ws
    {
      clients := Without(clients, ws);
    }
  }
}
