/** What the server of src/RpcServer.cc puts on the wire for a handler's result. */
module ServerReply {
  import opened ByteOrder
  import opened Options
  import opened RpcMessage
  import RpcMessageObjects

  /** `RpcServer::RpcResult`; a handler may put any number into the status and the code. */
  datatype RpcResult = RpcResult(result: nat, code: u16, payload: Bytes, errorMessage: Bytes)

  datatype HandlerOutcome = Returned(result: RpcResult) | Threw

  /** The frame handed to the connection, or the decision to close it. */
  datatype Sent = Frame(bytes: Bytes) | Close

  function Failure(code: u16, text: string): RpcResult {
    RpcResult(UNSUCCESS, code, [], Ascii(text))
  }

  function ToResponse(id: u64, r: RpcResult): Response {
    Response(id, r.result, r.code, r.payload, r.errorMessage)
  }

  /** The check on a handler's result, written out in `invokeSyncHandler` and again in the reply closure. */
  predicate IllegalResult(r: RpcResult) {
    || (r.result == UNSUCCESS && r.payload != [])
    || (r.result == SUCCESS && r.errorMessage != [])
    || (r.result != SUCCESS && r.result != UNSUCCESS)
    || r.code >= ERROR_CODE_CNT
    || (r.result == SUCCESS && r.code != NO_ERROR)
    || (r.result == UNSUCCESS && r.code == NO_ERROR)
  }

  function Sanitised(outcome: HandlerOutcome): RpcResult {
    match outcome
    case Threw => Failure(INTERNAL_ERROR, "handler exception")
    case Returned(r) => if IllegalResult(r) then Failure(INTERNAL_ERROR, "invalid handler result") else r
  }

  const TOO_LARGE := "rpc message too large"

  function Send(id: u64, r: RpcResult, maxSize: nat): Sent {
    if ResponseLen(|r.payload|, |r.errorMessage|) > maxSize then
      if maxSize < ResponseLen(0, |TOO_LARGE|) then Close
      else match EncodeResponse(ToResponse(id, Failure(MESSAGE_TOO_LARGE, TOO_LARGE)))
        case Err(_) => Close
        case Ok(bytes) => Frame(bytes)
    else match EncodeResponse(ToResponse(id, r))
      case Err(_) => Close
      case Ok(bytes) => Frame(bytes)
  }

  /** What the client is meant to receive: the result, or the 43-byte notice that it did not fit. */
  function Intended(id: u64, r: RpcResult, maxSize: nat): Response {
    if ResponseLen(|r.payload|, |r.errorMessage|) > maxSize then
      ToResponse(id, Failure(MESSAGE_TOO_LARGE, TOO_LARGE))
    else ToResponse(id, r)
  }

  /** The handler check rejects exactly the results that the printer would reject for their shape. */
  lemma HandlerCheckIsShapeCheck(id: u64, r: RpcResult)
    ensures IllegalResult(r) <==> !WellShaped(ToResponse(id, r))
  {}

  lemma SanitisedIsWellShaped(id: u64, outcome: HandlerOutcome)
    ensures WellShaped(ToResponse(id, Sanitised(outcome)))
  {
    if outcome.Returned? {
      HandlerCheckIsShapeCheck(id, outcome.result);
    }
  }

  /** For every well-shaped result and every legal size limit the server sends a frame within the limit that the
      client decodes to what was meant; it closes only when not even the 43-byte notice fits. */
  lemma SentIsIntended(id: u64, r: RpcResult, maxSize: nat)
    requires maxSize <= MAX_MESSAGE_SIZE && WellShaped(ToResponse(id, r))
    ensures var sent := Send(id, r, maxSize);
            && (sent.Close? <==> maxSize < 43 && ResponseLen(|r.payload|, |r.errorMessage|) > maxSize)
            && (sent.Frame? ==> |sent.bytes| <= maxSize
                                && DecodeResponse(sent.bytes) == Ok(Intended(id, r, maxSize))
                                && sent.bytes == ResponseWire(Intended(id, r, maxSize)))
    ensures WellShaped(Intended(id, r, maxSize)) && ResponseEncodable(Intended(id, r, maxSize))
  {
    assert |Ascii(TOO_LARGE)| == 21;
    var meant := Intended(id, r, maxSize);
    ResponseEncodeAccepts(meant);
    ResponseBijection(ResponseWire(meant), meant);
    WireLengths(Request(0, [], [], []), meant, 0);
  }

  /** For every handler, also one that throws or returns nonsense, the client gets a
      valid answer or a closed connection. */
  lemma RepliesAlwaysValid(id: u64, outcome: HandlerOutcome, maxSize: nat)
    requires 0 < maxSize <= MAX_MESSAGE_SIZE
    ensures var sent, r := Send(id, Sanitised(outcome), maxSize), Sanitised(outcome);
            && (sent.Frame? ==> |sent.bytes| <= maxSize && DecodeResponse(sent.bytes) == Ok(Intended(id, r, maxSize)))
            && (maxSize >= 43 ==> sent.Frame?)
            && (outcome.Returned? && sent.Frame? && !IllegalResult(outcome.result)
                && ResponseLen(|outcome.result.payload|, |outcome.result.errorMessage|) <= maxSize ==>
                DecodeResponse(sent.bytes) == Ok(ToResponse(id, outcome.result)))
            && (outcome.Threw? && sent.Frame? && maxSize >= 43 ==>
                DecodeResponse(sent.bytes)
                == Ok(Response(id, UNSUCCESS, INTERNAL_ERROR, [], Ascii("handler exception"))))
            && (outcome.Returned? && IllegalResult(outcome.result) && maxSize >= 44 ==>
                DecodeResponse(sent.bytes)
                == Ok(Response(id, UNSUCCESS, INTERNAL_ERROR, [], Ascii("invalid handler result"))))
  {
    SanitisedIsWellShaped(id, outcome);
    SentIsIntended(id, Sanitised(outcome), maxSize);
  }

  // ----------------------------------------------------------- the send paths

  /** `sendFramedData`, used by the reply closure of asynchronous handlers. */
  method SendFramedData(little: bool, id: u64, r: RpcResult, maxSize: nat) returns (sent: Sent)
    ensures sent == Send(id, r, maxSize)
  {
    var outputMessageLen := ResponseLen(|r.payload|, |r.errorMessage|);
    if outputMessageLen > maxSize {
      if maxSize < ResponseLen(0, |TOO_LARGE|) {
        return Close;
      }
      var notice := new RpcMessageObjects.RpcResponse(id, UNSUCCESS, MESSAGE_TOO_LARGE, [], Ascii(TOO_LARGE));
      var encoded := notice.Encode(little);
      if encoded.Err? {
        return Close;
      }
      return Frame(encoded.value);
    }
    var response := new RpcMessageObjects.RpcResponse(id, r.result, r.code, r.payload, r.errorMessage);
    var encoded := response.Encode(little);
    if encoded.Err? {
      return Close;
    }
    return Frame(encoded.value);
  }

  /** `RpcServer::sendResponse`, used everywhere else: the same decision with the server's own limit. */
  method SendResponse(little: bool, id: u64, r: RpcResult, maxSetting: Option<nat>) returns (sent: Sent)
    ensures sent == Send(id, r, maxSetting.ValueOr(MAX_MESSAGE_SIZE))
  {
    var effectiveMaxMessageSize := maxSetting.ValueOr(MAX_MESSAGE_SIZE);
    if ResponseLen(|r.payload|, |r.errorMessage|) > effectiveMaxMessageSize {
      if effectiveMaxMessageSize < ResponseLen(0, |TOO_LARGE|) {
        return Close;
      }
      var notice := new RpcMessageObjects.RpcResponse(id, UNSUCCESS, MESSAGE_TOO_LARGE, [], Ascii(TOO_LARGE));
      var encoded := notice.Encode(little);
      return if encoded.Ok? then Frame(encoded.value) else Close;
    }
    var response := new RpcMessageObjects.RpcResponse(id, r.result, r.code, r.payload, r.errorMessage);
    var encoded := response.Encode(little);
    return if encoded.Ok? then Frame(encoded.value) else Close;
  }

  /** `invokeSyncHandler` from the handler's outcome on. */
  method InvokeSyncHandler(little: bool, id: u64, outcome: HandlerOutcome, maxSetting: Option<nat>) returns (sent: Sent)
    requires maxSetting.Some? ==> 0 < maxSetting.value <= MAX_MESSAGE_SIZE
    ensures sent == Send(id, Sanitised(outcome), maxSetting.ValueOr(MAX_MESSAGE_SIZE))
    ensures sent.Frame? ==> DecodeResponse(sent.bytes).Ok? && DecodeResponse(sent.bytes).value.id == id
    ensures maxSetting.None? ==> sent.Frame?
  {
    RepliesAlwaysValid(id, outcome, maxSetting.ValueOr(MAX_MESSAGE_SIZE));
    match outcome
    case Threw =>
      sent := SendResponse(little, id, Failure(INTERNAL_ERROR, "handler exception"), maxSetting);
    case Returned(r) =>
      if IllegalResult(r) {
        sent := SendResponse(little, id, Failure(INTERNAL_ERROR, "invalid handler result"), maxSetting);
      } else {
        sent := SendResponse(little, id, r, maxSetting);
      }
  }
}
