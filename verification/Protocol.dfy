/**
 * The obs-websocket 5 frames `{ op, d }` exchanged by the session client and
 * the development server: op 0 Hello, 1 Identify, 2 Identified, 5 Event,
 * 6 Request, 7 RequestResponse.
 */
module Protocol {
  import opened Wrappers
  import opened JsValue

  const OpHello := 0
  const OpIdentify := 1
  const OpIdentified := 2
  const OpEvent := 5
  const OpRequest := 6
  const OpRequestResponse := 7

  /** Hello's `authentication` object. */
  datatype Challenge = Challenge(challenge: string, salt: string)

  datatype RequestStatus = RequestStatus(result: bool, code: int, comment: string)

  /** An Event payload `{ eventType, eventIntent, eventData }`. */
  datatype EventData = EventData(eventType: string, eventIntent: int, eventData: Value)

  /** An op code the client does not handle. */
  type OtherOp = op: int | op != OpHello && op != OpIdentified && op != OpEvent && op != OpRequestResponse
    witness OpIdentify

  /**
   * A frame as the client receives it, its payload of the shape its op
   * prescribes. The request type and id of a response are whatever the
   * server echoed.
   */
  datatype ServerMessage =
    | Hello(obsWebSocketVersion: string, rpcVersion: int, authentication: Option<Challenge>)
    | Identified(negotiatedRpcVersion: int)
    | Event(event: EventData)
    | RequestResponse(requestType: Value, requestId: Value, requestStatus: RequestStatus, responseData: Value)
    | OtherFrame(op: OtherOp)

  /** A frame the client sends. */
  datatype ClientMessage =
    | Identify(rpcVersion: int, eventSubscriptions: int, authentication: Option<string>)
    | Request(requestType: string, requestId: string, requestData: Value)

  /**
   * The object the client's JSON.stringify serialises, which is what the
   * server's JSON.parse gives back; an absent `authentication` is no field.
   */
  function ToValue(m: ClientMessage): Value {
    match m
    case Identify(rpc, subs, auth) =>
      var d := map["rpcVersion" := Num(rpc), "eventSubscriptions" := Num(subs)];
      Obj(map["op" := Num(OpIdentify),
              "d" := Obj(if auth.Some? then d["authentication" := Str(auth.value)] else d)])
    case Request(t, id, data) =>
      Obj(map["op" := Num(OpRequest),
              "d" := Obj(map["requestType" := Str(t), "requestId" := Str(id), "requestData" := data])])
  }
}
