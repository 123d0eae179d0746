/**
 * The obs-websocket 5 session client (`OBSWebSocketClient`): handshake,
 * frame dispatch, request correlation, event listeners and the reconnect
 * guard.
 */
module ObsClient {
  import opened Wrappers
  import opened JsValue
  import opened Protocol
  import Base64
  import Auth

  // ---------------------------------------------------------------------
  // Event-listener registry: event type -> callbacks in registration order
  // ---------------------------------------------------------------------

  /** A listener callback; JavaScript compares callbacks by identity. */
  datatype Listener = Listener(id: nat)

  type Registry = map<string, seq<Listener>>

  /** `Array.prototype.indexOf`: the first position of x, or -1. */
  function IndexOf<T(==)>(s: seq<T>, x: T): (i: int)
    ensures -1 <= i < |s|
    ensures i == -1 <==> x !in s
    ensures 0 <= i ==> s[i] == x && x !in s[..i]
  {
    if |s| == 0 then -1
    else if s[0] == x then 0
    else
      var j := IndexOf(s[1..], x);
      if j == -1 then -1
      else
        assert s[..j + 1] == [s[0]] + s[1..][..j];
        j + 1
  }

  /** `indexOf` then `splice(index, 1)` when found: drops the first occurrence of x only. */
  function RemoveFirst<T(==)>(s: seq<T>, x: T): (r: seq<T>)
    ensures x !in s ==> r == s
    ensures multiset(r) == multiset(s) - multiset{x}
    ensures x in s ==> exists i | 0 <= i < |s| :: s[i] == x && x !in s[..i] && r == s[..i] + s[i + 1..]
  {
    var i := IndexOf(s, x);
    if i < 0 then s
    else
      assert s == s[..i] + [x] + s[i + 1..];
      s[..i] + s[i + 1..]
  }

  /** `this.eventListeners.get(eventType) || []` */
  function Listeners(reg: Registry, eventType: string): seq<Listener> {
    if eventType in reg then reg[eventType] else []
  }

  /** `addEventListener`: creates the list on first use, then appends. */
  function AddListener(reg: Registry, eventType: string, callback: Listener): (r: Registry)
    ensures r.Keys == reg.Keys + {eventType}
    ensures Listeners(r, eventType) == Listeners(reg, eventType) + [callback]
    ensures forall t | t != eventType :: Listeners(r, t) == Listeners(reg, t)
  {
    reg[eventType := Listeners(reg, eventType) + [callback]]
  }

  /** `removeEventListener`: a no-op for an unknown type or an absent callback. */
  function RemoveListener(reg: Registry, eventType: string, callback: Listener): (r: Registry)
    ensures r.Keys == reg.Keys
    ensures Listeners(r, eventType) == RemoveFirst(Listeners(reg, eventType), callback)
    ensures forall t | t != eventType :: Listeners(r, t) == Listeners(reg, t)
    ensures callback !in Listeners(reg, eventType) ==> r == reg
  {
    if eventType in reg then reg[eventType := RemoveFirst(reg[eventType], callback)] else reg
  }

  /** Appending x to a list that lacks it, then removing x, gives the list back. */
  lemma RemoveFirstAppended<T>(s: seq<T>, x: T)
    requires x !in s
    ensures RemoveFirst(s + [x], x) == s
  {
    var t := s + [x];
    var i := IndexOf(t, x);
    assert t[|s|] == x;
    assert t[..|s|] == s;
  }

  /**
   * Removing a callback just added (and not registered before) gives back the
   * type's earlier list; the type itself stays registered, possibly empty.
   */
  lemma RemoveAfterAdd(reg: Registry, eventType: string, callback: Listener)
    requires callback !in Listeners(reg, eventType)
    ensures RemoveListener(AddListener(reg, eventType, callback), eventType, callback)
         == reg[eventType := Listeners(reg, eventType)]
  {
    var s := Listeners(reg, eventType);
    var added := AddListener(reg, eventType, callback);
    RemoveFirstAppended(s, callback);
    assert added[eventType] == s + [callback];
  }

  // ---------------------------------------------------------------------
  // Request correlator
  // ---------------------------------------------------------------------

  /** The callback `sendRequest` registers: it settles promise number `promise`. */
  datatype Resolver = Resolver(promise: nat)

  datatype Outcome = Fulfilled(data: Value) | Rejected(message: string)

  datatype Settled = Settled(promise: nat, outcome: Outcome)

  type Callbacks = map<string, Resolver>

  /** What the registered callback does with a response. */
  function Settlement(status: RequestStatus, responseData: Value): (o: Outcome)
    ensures o.Fulfilled? <==> status.result
    ensures o.Fulfilled? ==> o.data == responseData
    ensures o.Rejected? ==> o.message == status.comment
  {
    if status.result then Fulfilled(responseData) else Rejected(status.comment)
  }

  /** Every pending key is the decimal form of its request's number, and that number is below `next`. */
  ghost predicate IdsBelow(callbacks: Callbacks, next: nat) {
    forall k | k in callbacks :: k == NatToString(callbacks[k].promise) && callbacks[k].promise < next
  }

  /** The id the counter hands out next is not pending: ids are never reused. */
  lemma FreshRequestId(callbacks: Callbacks, next: nat)
    requires IdsBelow(callbacks, next)
    ensures NatToString(next) !in callbacks
  {
    if NatToString(next) in callbacks {
      NatToStringInjective(callbacks[NatToString(next)].promise, next);
    }
  }

  // ---------------------------------------------------------------------
  // Handshake
  // ---------------------------------------------------------------------

  /** The Identify frame `identify` sends: the field `authentication` only for a non-empty string. */
  function IdentifyMessage(authString: Option<string>): (m: ClientMessage)
    ensures m.Identify? && Field(ToValue(m), "op") == Num(OpIdentify)
    ensures m.rpcVersion == 1 && m.eventSubscriptions == 33
    ensures m.authentication.Some? <==> authString.Some? && authString.value != ""
    ensures m.authentication.Some? ==> m.authentication == authString
  {
    ClientMessage.Identify(1, 33, if authString.Some? && authString.value != "" then authString else None)
  }

  datatype HelloStep = SendIdentify(authString: Option<string>) | FailHandshake(reason: string)

  const NoPasswordError := "Authentication required but no password provided"

  /** What `handleHello` decides for a Hello, given the stored password (None for null). */
  function HelloReaction(sha256: Auth.Digest, password: Option<string>, authentication: Option<Challenge>): (step: HelloStep)
    ensures authentication.None? ==> step == SendIdentify(None)
    ensures authentication.Some? && password.None? ==> step == FailHandshake(NoPasswordError)
    ensures authentication.Some? && password.Some? ==>
      (step.SendIdentify? <==> Auth.GenerateAuthResponse(sha256, password.value, authentication.value.challenge, authentication.value.salt).Ok?)
  {
    if authentication.None? then SendIdentify(None)
    else if password.None? then FailHandshake(NoPasswordError)
    else
      match Auth.GenerateAuthResponse(sha256, password.value, authentication.value.challenge, authentication.value.salt)
      case Ok(s) => SendIdentify(Some(s))
      case Err(e) => FailHandshake(e)
  }

  /**
   * With a password and a SHA-256 that succeeds, a Hello that asks for
   * authentication is answered by an Identify carrying the 44-character
   * response, which decodes to the digest of (secret + challenge).
   */
  lemma HelloWithPassword(sha256: Auth.Digest, password: string, c: Challenge)
    requires forall m :: sha256(m).Ok? && |sha256(m).value| == 32
    ensures var step := HelloReaction(sha256, Some(password), Some(c));
      && step.SendIdentify?
      && var m := IdentifyMessage(step.authString);
      && m.authentication.Some?
      && |m.authentication.value| == 44
      && m.authentication.value
         == Base64.Encode(sha256(Base64.Encode(sha256(password + c.salt).value) + c.challenge).value)
      && Base64.Decode(m.authentication.value)
         == Some(sha256(Base64.Encode(sha256(password + c.salt).value) + c.challenge).value)
  {
    Auth.AuthResponseVerifiable(sha256, password, c.challenge, c.salt);
    Auth.AuthResponseLength(sha256, password, c.challenge, c.salt);
  }

  // ---------------------------------------------------------------------
  // The client object
  // ---------------------------------------------------------------------

  /** The `connectionStatus` store. */
  datatype Status = Disconnected | Connecting | Connected | Error

  /** What the pending reconnect interval will call `connect` with. */
  datatype Target = Target(url: string, password: string)

  /** What the client does to the outside world, in order. */
  datatype Action =
    | Send(message: ClientMessage)          // ws.send(JSON.stringify(...)); a closed socket drops it
    | CloseSocket                           // ws.close()
    // calls of the connect promise's settlers; a call after it settled has no effect
    | ResolveConnect                        // connectResolve()
    | RejectConnect(reason: string)         // connectReject(error)
    | Settle(settled: Settled)              // a sendRequest promise settles
    | Notify(listener: Listener, event: EventData)   // callback(eventData)

  const DefaultUrl := "ws://localhost:4455"
  const SocketError := "WebSocket error"
  const NoSocketError := "TypeError: Cannot read properties of null (reading 'send')"
  /** The DOMException `ws.send` throws while the socket is CONNECTING; its message text varies by engine. */
  const InvalidStateError := "InvalidStateError"

  /** The initial value of the `matchData` store. */
  const InitialMatchData: Value :=
    Obj(map["homeTeam" := Obj(map["name" := Str(""), "score" := Num(0)]),
            "awayTeam" := Obj(map["name" := Str(""), "score" := Num(0)]),
            "period" := Num(1),
            "time" := Str("00:00"),
            "lastUpdated" := Null])

  /** The listener calls of `listeners.forEach((callback) => callback(eventData))`. */
  function Notifications(listeners: seq<Listener>, e: EventData): (r: seq<Action>)
    ensures |r| == |listeners|
    ensures forall i | 0 <= i < |r| :: r[i] == Notify(listeners[i], e)
  {
    if listeners == [] then [] else [Notify(listeners[0], e)] + Notifications(listeners[1..], e)
  }

  /** Calling one more listener adds its notification at the end. */
  lemma NotificationsSnoc(listeners: seq<Listener>, x: Listener, e: EventData)
    ensures Notifications(listeners + [x], e) == Notifications(listeners, e) + [Notify(x, e)]
  {
    var l, r := Notifications(listeners + [x], e), Notifications(listeners, e) + [Notify(x, e)];
    assert |l| == |r|;
    forall i | 0 <= i < |l|
      ensures l[i] == r[i]
    {
      if i < |listeners| {
        assert (listeners + [x])[i] == listeners[i];
      }
    }
  }

  /** `handleEvent`'s test for a match update. */
  predicate IsMatchUpdate(e: EventData) {
    e.eventType == "CustomEvent" && Truthy(e.eventData)
    && Prop(e.eventData, "eventName") == Ok(Str("MatchUpdate"))
  }

  function HandshakeActions(step: HelloStep, canReject: bool): seq<Action> {
    match step
    case SendIdentify(a) => [Send(IdentifyMessage(a))]
    case FailHandshake(reason) => (if canReject then [RejectConnect(reason)] else []) + [CloseSocket]
  }

  class ObsWebSocketClient {
    /** SHA-256 over UTF-8, the platform's primitive. */
    const sha256: Auth.Digest

    var hasSocket: bool                     // this.ws !== null
    var leftConnecting: bool                // this.ws has left CONNECTING (open, error or close fired)
    var password: Option<string>            // None: null (an omitted argument defaults to "")
    var url: Option<string>                 // None: never connected
    var reconnectInterval: Option<Target>   // None: no interval pending
    var requestId: nat
    var requestCallbacks: Callbacks
    var eventListeners: Registry
    var connectResolve: bool                // false: null or unset
    var connectReject: bool
    var connectionStatus: Status
    var matchData: Value
    var trace: seq<Action>

    ghost predicate Valid()
      reads this
    {
      requestId >= 1 && IdsBelow(requestCallbacks, requestId)
    }

    constructor (sha256: Auth.Digest)
      ensures Valid() && this.sha256 == sha256
      ensures !hasSocket && !leftConnecting && password == Some("") && url.None? && reconnectInterval.None?
      ensures requestId == 1 && requestCallbacks == map[] && eventListeners == map[]
      ensures !connectResolve && !connectReject
      ensures connectionStatus == Disconnected && matchData == InitialMatchData && trace == []
    {
      this.sha256 := sha256;
      hasSocket := false;
      leftConnecting := false;
      password := Some("");
      url := None;
      reconnectInterval := None;
      requestId := 1;
      requestCallbacks := map[];
      eventListeners := map[];
      connectResolve, connectReject := false, false;
      connectionStatus := Disconnected;
      matchData := InitialMatchData;
      trace := [];
    }

    /** `connect`: remembers url and password, opens a socket and a pending connect promise. */
    method Connect(url: string, password: Option<string>)
      modifies this`password, this`url, this`hasSocket, this`leftConnecting, this`connectResolve, this`connectReject
      ensures this.password == password && this.url == Some(url)
      ensures hasSocket && !leftConnecting && connectResolve && connectReject
    {
      this.password := password;
      this.url := Some(url);
      hasSocket, leftConnecting := true, false;
      connectResolve, connectReject := true, true;
    }

    /** `ws.onopen` */
    method OnOpen()
      modifies this`connectionStatus, this`leftConnecting
      ensures connectionStatus == Connecting && leftConnecting
    {
      connectionStatus := Connecting;
      leftConnecting := true;
    }

    /**
     * `ws.onclose`: the socket is CLOSED; pending request callbacks stay
     * registered.
     */
    method OnClose()
      modifies this`connectionStatus, this`leftConnecting, this`reconnectInterval
      ensures connectionStatus == Disconnected && leftConnecting
      ensures reconnectInterval.Some?
      ensures old(reconnectInterval).Some? ==> reconnectInterval == old(reconnectInterval)
      ensures old(reconnectInterval).None? ==>
        reconnectInterval == Some(Target(if url.Some? && url.value != "" then url.value else DefaultUrl,
                                         password.GetOr("")))
    {
      connectionStatus := Disconnected;
      leftConnecting := true;
      AttemptReconnect();
    }

    /**
     * `ws.onerror`: the socket is closing or closed; `connectReject` is called
     * only while it is set, then cleared, so at most once. After a successful
     * handshake it is still set, and that call finds the promise already
     * fulfilled and has no effect.
     */
    method OnError()
      modifies this`connectionStatus, this`leftConnecting, this`connectReject, this`trace
      ensures connectionStatus == Error && leftConnecting && !connectReject
      ensures trace == old(trace) + if old(connectReject) then [RejectConnect(SocketError)] else []
    {
      connectionStatus := Error;
      leftConnecting := true;
      if connectReject {
        trace := trace + [RejectConnect(SocketError)];
        connectReject := false;
      }
    }

    /** `identify` */
    method Identify(authString: Option<string>)
      requires hasSocket
      modifies this`trace
      ensures trace == old(trace) + [Send(IdentifyMessage(authString))]
    {
      var auth := None;
      if authString.Some? && authString.value != "" {
        auth := authString;
      }
      trace := trace + [Send(ClientMessage.Identify(1, 33, auth))];
    }

    /** `handleHello` */
    method HandleHello(authentication: Option<Challenge>)
      requires hasSocket
      modifies this`connectionStatus, this`connectReject, this`trace
      ensures var step := HelloReaction(sha256, password, authentication);
        && trace == old(trace) + HandshakeActions(step, old(connectReject))
        && connectionStatus == (if step.FailHandshake? then Error else old(connectionStatus))
        && connectReject == (old(connectReject) && step.SendIdentify?)
      ensures authentication.None? ==> trace == old(trace) + [Send(ClientMessage.Identify(1, 33, None))]
      ensures authentication.Some? && password.None? ==>
        connectionStatus == Error && !connectReject && trace[|trace| - 1] == CloseSocket
        && forall a | a in trace[|old(trace)|..] :: !a.Send?
    {
      if authentication.Some? {
        if password.None? {
          connectionStatus := Error;
          if connectReject {
            trace := trace + [RejectConnect(NoPasswordError)];
            connectReject := false;
          }
          trace := trace + [CloseSocket];
          return;
        }
        var authResponse := Auth.GenerateAuthResponse(sha256, password.value, authentication.value.challenge, authentication.value.salt);
        match authResponse {
          case Ok(s) =>
            Identify(Some(s));
          case Err(e) =>
            connectionStatus := Error;
            if connectReject {
              trace := trace + [RejectConnect(e)];
              connectReject := false;
            }
            trace := trace + [CloseSocket];
        }
      } else {
        Identify(None);
      }
    }

    /** op 2: connected; the connect promise resolves at most once. */
    method HandleIdentified()
      modifies this`connectionStatus, this`connectResolve, this`trace
      ensures connectionStatus == Connected && !connectResolve
      ensures trace == old(trace) + if old(connectResolve) then [ResolveConnect] else []
    {
      connectionStatus := Connected;
      if connectResolve {
        trace := trace + [ResolveConnect];
        connectResolve := false;
      }
    }

    /** `handleEvent`: a MatchUpdate custom event replaces matchData, then the type's listeners run in order. */
    method HandleEvent(e: EventData)
      modifies this`matchData, this`trace
      ensures matchData == if IsMatchUpdate(e) then Prop(e.eventData, "eventData").value else old(matchData)
      ensures trace == old(trace) + Notifications(Listeners(eventListeners, e.eventType), e)
    {
      if e.eventType == "CustomEvent" {
        var customData := e.eventData;
        if Truthy(customData) && Prop(customData, "eventName") == Ok(Str("MatchUpdate")) {
          matchData := Prop(customData, "eventData").value;
        }
      }
      var listeners := Listeners(eventListeners, e.eventType);
      ghost var updated := matchData;
      for i := 0 to |listeners|
        invariant matchData == updated
        invariant trace == old(trace) + Notifications(listeners[..i], e)
      {
        assert listeners[..i + 1] == listeners[..i] + [listeners[i]];
        NotificationsSnoc(listeners[..i], listeners[i], e);
        trace := trace + [Notify(listeners[i], e)];
      }
      assert listeners[..|listeners|] == listeners;
    }

    /**
     * `handleResponse`: an unknown id changes nothing; a pending one is
     * settled once and only its entry is removed.
     */
    method HandleResponse(requestId: Value, status: RequestStatus, responseData: Value)
      requires Valid()
      modifies this`requestCallbacks, this`trace
      ensures Valid()
      ensures !(requestId.Str? && requestId.s in old(requestCallbacks)) ==>
        requestCallbacks == old(requestCallbacks) && trace == old(trace)
      ensures requestId.Str? && requestId.s in old(requestCallbacks) ==>
        && requestCallbacks == old(requestCallbacks) - {requestId.s}
        && trace == old(trace) + [Settle(Settled(old(requestCallbacks)[requestId.s].promise, Settlement(status, responseData)))]
    {
      if requestId.Str? && requestId.s in requestCallbacks {
        var callback := requestCallbacks[requestId.s];
        trace := trace + [Settle(Settled(callback.promise, Settlement(status, responseData)))];
        requestCallbacks := requestCallbacks - {requestId.s};
      }
    }

    /** `handleMessage`: dispatch on the op code; any other op changes nothing. */
    method HandleMessage(m: ServerMessage)
      requires Valid() && hasSocket
      modifies this`connectionStatus, this`connectResolve, this`connectReject, this`matchData
      modifies this`requestCallbacks, this`trace
      ensures Valid()
      ensures m.OtherFrame? ==> unchanged(this)
      ensures !m.Hello? ==> connectReject == old(connectReject)
      ensures !m.Identified? ==> connectResolve == old(connectResolve)
      ensures !m.Event? ==> matchData == old(matchData)
      ensures !m.RequestResponse? ==> requestCallbacks == old(requestCallbacks)
      ensures m.Hello? ==>
        var step := HelloReaction(sha256, password, m.authentication);
        && trace == old(trace) + HandshakeActions(step, old(connectReject))
        && connectionStatus == (if step.FailHandshake? then Error else old(connectionStatus))
        && connectReject == (old(connectReject) && step.SendIdentify?)
      ensures m.Hello? && m.authentication.None? ==> trace == old(trace) + [Send(ClientMessage.Identify(1, 33, None))]
      ensures m.Hello? && m.authentication.Some? && password.None? ==>
        connectionStatus == Error && !connectReject && trace[|trace| - 1] == CloseSocket
        && forall a | a in trace[|old(trace)|..] :: !a.Send?
      ensures m.Identified? ==>
        connectionStatus == Connected && !connectResolve
        && trace == old(trace) + if old(connectResolve) then [ResolveConnect] else []
      ensures m.Event? ==>
        && connectionStatus == old(connectionStatus)
        && matchData == (if IsMatchUpdate(m.event) then Prop(m.event.eventData, "eventData").value else old(matchData))
        && trace == old(trace) + Notifications(Listeners(eventListeners, m.event.eventType), m.event)
      ensures m.RequestResponse? ==>
        && connectionStatus == old(connectionStatus)
        && var id := m.requestId;
        && (!(id.Str? && id.s in old(requestCallbacks)) ==> requestCallbacks == old(requestCallbacks) && trace == old(trace))
        && (id.Str? && id.s in old(requestCallbacks) ==>
              && requestCallbacks == old(requestCallbacks) - {id.s}
              && trace == old(trace) + [Settle(Settled(old(requestCallbacks)[id.s].promise, Settlement(m.requestStatus, m.responseData)))])
    {
      match m {
        case Hello(_, _, authentication) =>
          HandleHello(authentication);
        case Identified(_) =>
          HandleIdentified();
        case Event(e) =>
          HandleEvent(e);
        case RequestResponse(_, id, status, data) =>
          HandleResponse(id, status, data);
        case OtherFrame(_) =>
      }
    }

    /**
     * `sendRequest`: takes the counter as the request's id, registers its
     * callback under the id's decimal form and sends the Request. The
     * connection state is not checked: `ws.send` throws after the callback
     * is registered when there is no socket (TypeError) or the socket is
     * still connecting (InvalidStateError), and the promise rejects. A
     * closing or closed socket drops the frame without throwing.
     */
    method SendRequest(requestType: string, requestData: Value) returns (promise: nat)
      requires Valid()
      modifies this`requestId, this`requestCallbacks, this`trace
      ensures Valid()
      ensures promise == old(requestId) && requestId == old(requestId) + 1
      ensures NatToString(promise) !in old(requestCallbacks)
      ensures requestCallbacks == old(requestCallbacks)[NatToString(promise) := Resolver(promise)]
      ensures trace == old(trace) +
        if !hasSocket then [Settle(Settled(promise, Rejected(NoSocketError)))]
        else if !leftConnecting then [Settle(Settled(promise, Rejected(InvalidStateError)))]
        else [Send(Request(requestType, NatToString(promise), requestData))]
    {
      promise := requestId;
      requestId := requestId + 1;
      FreshRequestId(requestCallbacks, promise);
      var id := NatToString(promise);
      requestCallbacks := requestCallbacks[id := Resolver(promise)];
      if !hasSocket {
        trace := trace + [Settle(Settled(promise, Rejected(NoSocketError)))];
      } else if !leftConnecting {
        trace := trace + [Settle(Settled(promise, Rejected(InvalidStateError)))];
      } else {
        trace := trace + [Send(Request(requestType, id, requestData))];
      }
    }

    /** `addEventListener` */
    method AddEventListener(eventType: string, callback: Listener)
      modifies this`eventListeners
      ensures eventListeners == AddListener(old(eventListeners), eventType, callback)
    {
      if eventType !in eventListeners {
        eventListeners := eventListeners[eventType := []];
      }
      eventListeners := eventListeners[eventType := eventListeners[eventType] + [callback]];
    }

    /** `removeEventListener` */
    method RemoveEventListener(eventType: string, callback: Listener)
      modifies this`eventListeners
      ensures eventListeners == RemoveListener(old(eventListeners), eventType, callback)
    {
      if eventType in eventListeners {
        var listeners := eventListeners[eventType];
        var index := IndexOf(listeners, callback);
        if index > -1 {
          eventListeners := eventListeners[eventType := listeners[..index] + listeners[index + 1..]];
        }
      }
    }

    /** `attemptReconnect`: nothing while an interval is pending. */
    method AttemptReconnect()
      modifies this`reconnectInterval
      ensures old(reconnectInterval).Some? ==> reconnectInterval == old(reconnectInterval)
      ensures old(reconnectInterval).None? ==>
        reconnectInterval == Some(Target(if url.Some? && url.value != "" then url.value else DefaultUrl,
                                         password.GetOr("")))
    {
      if reconnectInterval.Some? {
        return;
      }
      var u := if url.Some? && url.value != "" then url.value else DefaultUrl;
      var p := if password.Some? && password.value != "" then password.value else "";
      reconnectInterval := Some(Target(u, p));
    }

    /** One tick of the reconnect interval: `connect` with the remembered url and password. */
    method ReconnectTick()
      requires reconnectInterval.Some?
      modifies this`password, this`url, this`hasSocket, this`leftConnecting, this`connectResolve, this`connectReject
      ensures password == Some(old(reconnectInterval).value.password)
      ensures url == Some(old(reconnectInterval).value.url)
      ensures hasSocket && !leftConnecting && connectResolve && connectReject
    {
      Connect(reconnectInterval.value.url, Some(reconnectInterval.value.password));
    }

    /** A reconnect attempt's connect resolved: the interval is cleared. */
    method ReconnectSucceeded()
      modifies this`reconnectInterval
      ensures reconnectInterval.None?
    {
      reconnectInterval := None;
    }

    /** `disconnect`: clears the interval and closes and drops the socket. */
    method Disconnect()
      modifies this`reconnectInterval, this`hasSocket, this`trace
      ensures reconnectInterval.None? && !hasSocket
      ensures trace == old(trace) + if old(hasSocket) then [CloseSocket] else []
    {
      if reconnectInterval.Some? {
        reconnectInterval := None;
      }
      if hasSocket {
        trace := trace + [CloseSocket];
        hasSocket := false;
      }
    }
  }

  /**
   * `disconnect` does not suppress reconnection: the close event of the
   * socket it closed runs `onclose`, which schedules a new interval.
   */
  method DisconnectThenClose(c: ObsWebSocketClient)
    modifies c
    ensures c.reconnectInterval.Some? && c.connectionStatus == Disconnected && !c.hasSocket
  {
    c.Disconnect();
    c.OnClose();
  }
}
