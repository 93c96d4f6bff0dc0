/** Connect (event_connection.go): validate the connect request, start a
    listener that waits for the session id or a server error, send the
    request, and return whichever outcome the caller's select sees first. */
module Connection {
  import opened Wrappers
  import opened Errors
  import opened Listener

  /** The errorId the server uses for a rejected API key. */
  const InvalidApiKeyErrorId := 19

  datatype NewConnectReq = NewConnectReq(
    apiKey: string,
    connectionSessionUUID: string,
    taskType: string)

  /** The response object; the listener and the timeout branch write its
      fields in place. */
  class NewConnectResp {
    var connectionSessionUUID: string
    var timedOut: bool

    /** `&NewConnectResp{}`: every field at its zero value. */
    constructor ()
      ensures connectionSessionUUID == "" && !timedOut
    {
      connectionSessionUUID := "";
      timedOut := false;
    }
  }

  /** validateNewConnectReq: the API key is the only required field. */
  function ValidateNewConnectReq(req: NewConnectReq): (r: Outcome<SdkError>)
    ensures r.Pass? <==> req.apiKey != ""
    ensures r.Fail? ==> r.error == FieldRequired(ApiKey, Always)
  {
    if req.apiKey == "" then Fail(FieldRequired(ApiKey, Always)) else Pass
  }

  /** The default connect request: a "ping" that cannot be sent as it is,
      because the caller's API key has to be merged over it first, and that
      any non-empty key makes valid. */
  function NewConnectReqDefaults(): (d: NewConnectReq)
    ensures d.taskType == "ping"
    ensures ValidateNewConnectReq(d) == Fail(FieldRequired(ApiKey, Always))
    ensures forall key :: key != "" ==> ValidateNewConnectReq(d.(apiKey := key)).Pass?
  {
    NewConnectReq(apiKey := "", connectionSessionUUID := "", taskType := "ping")
  }

  /** Validation reads the API key and nothing else. */
  lemma ValidationReadsOnlyApiKey(a: NewConnectReq, b: NewConnectReq)
    requires a.apiKey == b.apiKey
    ensures ValidateNewConnectReq(a) == ValidateNewConnectReq(b)
  {
  }

  /** The error a server error frame becomes: errorId 19 is a rejected API
      key, any other id an unknown error; both keep the id and the text. */
  function ServerError(errorId: int, errorMessage: string): (e: SdkError)
    ensures e.InvalidApiKey? || e.WsUnknownError?
    ensures e.errorId == errorId && e.errorMessage == errorMessage
    ensures e.InvalidApiKey? <==> errorId == InvalidApiKeyErrorId
  {
    if errorId == InvalidApiKeyErrorId then InvalidApiKey(errorId, errorMessage)
    else WsUnknownError(errorId, errorMessage)
  }

  /** One inbound frame as the listener's JSON path queries see it: the
      `error` field read as a boolean, `errorId` as a number, `errorMessage`
      as text (each at its zero value when absent), and, for every other
      top-level key present, that value's text rendering. */
  datatype ConnectMessage = ConnectMessage(
    isError: bool,
    errorId: int,
    errorMessage: string,
    fields: map<string, string>)

  /** What Connect's listener makes of one frame. The error flag is looked
      at first, so an error-flagged frame fails the call even when it also
      carries the response-event key; otherwise the frame answers the call
      with that key's value when it has the key, and is passed over when
      it has neither. */
  function ClassifyConnectMessage(m: ConnectMessage, responseEvent: string): (v: Verdict<string>)
    ensures v.Reject? <==> m.isError
    ensures v.Reject? ==> v.error == ServerError(m.errorId, m.errorMessage)
    ensures v.Deliver? <==> !m.isError && responseEvent in m.fields
    ensures v.Deliver? ==> v.value == m.fields[responseEvent]
    ensures v.Skip? <==> !m.isError && responseEvent !in m.fields
  {
    if m.isError then Reject(ServerError(m.errorId, m.errorMessage))
    else if responseEvent in m.fields then Deliver(m.fields[responseEvent])
    else Skip
  }

  /** The listener's verdict on each frame of the stream, in order. */
  function ConnectVerdicts(stream: seq<ConnectMessage>, responseEvent: string): seq<Verdict<string>>
  {
    seq(|stream|, i requires 0 <= i < |stream| => ClassifyConnectMessage(stream[i], responseEvent))
  }

  /** Connect's listener goroutine, run over the frames it receives before
      the connection closes: it stops at the first error-flagged frame or
      the first frame carrying the response-event key, storing that key's
      value as the session id. */
  method ListenForSession(stream: seq<ConnectMessage>, responseEvent: string, resp: NewConnectResp)
    returns (exit: Exit<string>)
    modifies resp
    ensures exit == FirstDecisive(ConnectVerdicts(stream, responseEvent))
    ensures resp.connectionSessionUUID ==
      if exit.Delivered? then exit.value else old(resp.connectionSessionUUID)
    ensures resp.timedOut == old(resp.timedOut)
  {
    ghost var vs := ConnectVerdicts(stream, responseEvent);
    var i := 0;
    while i < |stream|
      invariant 0 <= i <= |stream|
      invariant forall j :: 0 <= j < i ==> vs[j].Skip?
      invariant unchanged(resp)
    {
      var msg := stream[i];
      if msg.isError {
        DecidedAt(vs, i);
        return Rejected(ServerError(msg.errorId, msg.errorMessage), i);
      }
      if responseEvent in msg.fields {
        resp.connectionSessionUUID := msg.fields[responseEvent];
        DecidedAt(vs, i);
        return Delivered(resp.connectionSessionUUID, i);
      }
      i := i + 1;
    }
    return Exhausted;
  }

  /** The frame Connect hands to the transport. */
  datatype ConnectFrame = ConnectFrame(
    id: string,
    event: string,
    responseEvent: string,
    data: NewConnectReq)

  /** Connect, for a request already merged with NewConnectReqDefaults.
      `listening` says whether the listener was started; `sent` is the frame
      handed to the transport, if any. */
  method Connect(
    req: NewConnectReq, requestEvent: string, responseEvent: string,
    env: CallEnv, stream: seq<ConnectMessage>)
    returns (resp: NewConnectResp?, err: Option<SdkError>, listening: bool, sent: Option<ConnectFrame>)
    // A request that fails validation returns the error before anything
    // is started or sent.
    ensures ValidateNewConnectReq(req).Fail? ==>
      resp == null && err == Some(ValidateNewConnectReq(req).error) && !listening && sent == None
    ensures ValidateNewConnectReq(req).Pass? ==> listening
    ensures sent.Some? ==>
      ValidateNewConnectReq(req).Pass? && env.encodeError.None? &&
      sent.value == ConnectFrame(env.requestId, requestEvent, responseEvent, req)
    ensures ValidateNewConnectReq(req).Pass? && env.encodeError.None? ==> sent.Some?
    // Encoding and transport failures come back unchanged, with no response.
    ensures ValidateNewConnectReq(req).Pass? && env.encodeError.Some? ==>
      resp == null && err == env.encodeError
    ensures sent.Some? && env.sendError.Some? ==> resp == null && err == env.sendError
    // Once sent, the outcome is that of the select case that fires.
    ensures sent.Some? && env.sendError.None? ==>
      var exit := FirstDecisive(ConnectVerdicts(stream, responseEvent));
      match env.ready
      case ListenerDone =>
        (exit.Delivered? ==>
           resp != null && fresh(resp) && err == None &&
           resp.connectionSessionUUID == exit.value && !resp.timedOut) &&
        (exit.Rejected? ==> resp == null && err == Some(exit.error)) &&
        (exit.Exhausted? ==> resp == null && err == None)
      case TimerFired =>
        resp != null && fresh(resp) && resp.timedOut &&
        resp.connectionSessionUUID == (if exit.Delivered? then exit.value else "") &&
        err == Some(RequestTimeout(requestEvent))
      case ContextCancelled(reason) =>
        resp == null && err == Some(ContextDone(reason))
  {
    listening, sent := false, None;
    var invalid := ValidateNewConnectReq(req);
    if invalid.Fail? {
      return null, Some(invalid.error), listening, sent;
    }
    var frame := ConnectFrame(env.requestId, requestEvent, responseEvent, req);
    var newConnectResp := new NewConnectResp();
    listening := true;
    var exit := ListenForSession(stream, responseEvent, newConnectResp);
    if env.encodeError.Some? {
      return null, env.encodeError, listening, sent;
    }
    sent := Some(frame);
    if env.sendError.Some? {
      return null, env.sendError, listening, sent;
    }
    match env.ready {
      case ListenerDone =>
        // A closed channel yields its zero value, so a listener that ran
        // out of frames makes Connect return a nil response and a nil error.
        match exit {
          case Delivered(_, _) => resp, err := newConnectResp, None;
          case Rejected(e, _) => resp, err := null, Some(e);
          case Exhausted => resp, err := null, None;
        }
      case TimerFired =>
        newConnectResp.timedOut := true;
        resp, err := newConnectResp, Some(RequestTimeout(requestEvent));
      case ContextCancelled(reason) =>
        resp, err := null, Some(ContextDone(reason));
    }
  }
}
