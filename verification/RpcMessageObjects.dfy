/** The message objects of src/RpcMessage.cc: encoders that fill a buffer through a running
    index, decoders that advance `index` and `leftLen`, on a host of either byte order. */
module RpcMessageObjects {
  import opened ByteOrder
  import opened RpcMessage

  /** `memcpy(data + index, src, |src|); index += |src|`. */
  method Put(data: array<byte>, index: nat, src: Bytes) returns (next: nat)
    requires index + |src| <= data.Length
    modifies data
    ensures next == index + |src|
    ensures data[..next] == old(data[..index]) + src
  {
    var i := 0;
    while i < |src|
      invariant 0 <= i <= |src|
      invariant data[..index] == old(data[..index])
      invariant data[index..index + i] == src[..i]
    {
      data[index + i] := src[i];
      i := i + 1;
      assert data[index..index + i] == data[index..index + i - 1] + [src[i - 1]];
    }
    next := index + |src|;
    assert data[..next] == data[..index] + data[index..next];
  }

  /** Store an `n`-byte integer in network order. */
  method PutUint(little: bool, data: array<byte>, index: nat, n: nat, v: nat) returns (next: nat)
    requires v < Pow256(n)
    requires index + n <= data.Length
    modifies data
    ensures next == index + n
    ensures data[..next] == old(data[..index]) + BigEndian(n, v)
  {
    var net := Hton(little, n, v);
    next := Put(data, index, Image(little, n, net));
  }

  method PutText(little: bool, data: array<byte>, index: nat, s: Bytes) returns (next: nat)
    requires |s| <= UINT32_MAX
    requires index + 4 + |s| <= data.Length
    modifies data
    ensures next == index + 4 + |s|
    ensures data[..next] == old(data[..index]) + Text(s)
  {
    Widths();
    next := PutUint(little, data, index, 4, |s|);
    next := Put(data, next, s);
  }

  /** Fields appended one after the other spell the nested concatenation the format is defined by. */
  lemma Nest(a: Bytes, b: Bytes, c: Bytes, d: Bytes, e: Bytes)
    ensures a + b + c + d + e == a + (b + (c + (d + e)))
  {
    assert a + b + c == a + (b + c);
    assert a + b + c + d == a + (b + (c + d));
    assert b + (c + d) + e == b + (c + (d + e));
  }

  method PutStatus(little: bool, data: array<byte>, index: nat, result: nat, code: u16) returns (next: nat)
    requires result < 256
    requires index + 3 <= data.Length
    modifies data
    ensures next == index + 3
    ensures data[..next] == old(data[..index]) + Status(result, code)
  {
    Widths();
    next := Put(data, index, [result as byte]);
    next := PutUint(little, data, next, 2, code);
  }

  method PutHead(little: bool, data: array<byte>, kind: byte, id: u64) returns (next: nat)
    requires 11 <= data.Length
    modifies data
    ensures next == 11
    ensures data[..11] == Head(kind) + BigEndian(8, id)
  {
    Widths();
    next := PutUint(little, data, 0, 2, VERSION);
    next := Put(data, next, [kind]);
    next := PutUint(little, data, next, 8, id);
  }

  /** Load an `n`-byte integer stored in network order. */
  method GetUint(little: bool, data: Bytes, index: nat, n: nat) returns (v: nat)
    requires index + n <= |data|
    ensures v == Value(data[index..index + n]) < Pow256(n)
  {
    var net := Load(little, data[index..index + n]);
    LoadBound(little, data[index..index + n]);
    v := Hton(little, n, net);
    NetOrderOfLoad(little, data[index..index + n]);
    ValueBound(data[index..index + n]);
  }

  /** `loadString`: `index + leftLen` stays the length of the message, so every read is in bounds. */
  method LoadString(little: bool, data: Bytes, index: nat, leftLen: nat, ghost text: string)
    returns (ok: bool, nextIndex: nat, nextLeft: nat, target: Bytes)
    requires index + leftLen == |data|
    ensures nextIndex + nextLeft == |data|
    ensures ReadText(data[index..], text) == if ok then Got(target, data[nextIndex..]) else Bad(text)
  {
    nextIndex, nextLeft, target := index, leftLen, [];
    if leftLen < 4 {
      return false, nextIndex, nextLeft, target;
    }
    var hostLen := GetUint(little, data, index, 4);
    assert data[index..][..4] == data[index..index + 4];
    nextLeft := nextLeft - 4;
    nextIndex := nextIndex + 4;
    if nextLeft < hostLen {
      return false, nextIndex, nextLeft, target;
    }
    target := data[nextIndex..nextIndex + hostLen];
    assert target == data[index..][4..4 + hostLen];
    assert data[nextIndex + hostLen..] == data[index..][4 + hostLen..];
    nextLeft := nextLeft - hostLen;
    nextIndex := nextIndex + hostLen;
    ok := true;
  }

  /** The common front of the three decoders: version, type and request id. */
  method LoadFront(little: bool, data: Bytes, kind: byte, wrongKind: string) returns (front: Parsed<u64>)
    ensures front == match ReadHead(kind, data, wrongKind)
                     case Bad(text) => Bad(text)
                     case Got(_, rest) => ReadId(rest)
    ensures front.Got? ==> |data| >= 11 && front.rest == data[11..]
  {
    var leftLen := |data|;
    if leftLen <= 0 {
      return Bad("length <= 0");
    }
    var index := 0;
    if leftLen < 2 {
      return Bad("version length error");
    }
    var version := GetUint(little, data, index, 2);
    leftLen := leftLen - 2;
    index := index + 2;
    if version != VERSION {
      return Bad("unsupported rpc protocol version");
    }
    if leftLen < 1 {
      return Bad("type length error");
    }
    var kindByte := data[index];
    leftLen := leftLen - 1;
    index := index + 1;
    if kindByte != kind {
      return Bad(wrongKind);
    }
    if leftLen < 8 {
      return Bad("request id length error");
    }
    var id := GetUint(little, data, index, 8);
    Widths();
    assert data[3..][..8] == data[3..11];
    assert data[3..][8..] == data[11..];
    return Got(id, data[11..]);
  }

  /** `decodeHead`: the type byte, if version and type are known. */
  method ReadKind(little: bool, data: Bytes) returns (kind: Outcome<byte>)
    ensures kind == DecodeHead(data)
  {
    if |data| < 3 {
      return Err("");
    }
    var version := GetUint(little, data, 0, 2);
    assert data[0..2] == data[..2];
    if version != VERSION {
      return Err("");
    }
    var kindByte := data[2];
    if kindByte != KIND_REQUEST && kindByte != KIND_RESPONSE && kindByte != KIND_CANCEL {
      return Err("");
    }
    return Ok(kindByte);
  }

  class RpcRequest {
    var requestId: u64
    var service: Bytes
    var methodName: Bytes
    var payload: Bytes

    function Content(): Request
      reads this
    {
      Request(requestId, service, methodName, payload)
    }

    constructor (id: u64, service: Bytes, methodName: Bytes, payload: Bytes)
      ensures Content() == Request(id, service, methodName, payload)
    {
      this.requestId, this.service, this.methodName, this.payload := id, service, methodName, payload;
    }

    method Encode(little: bool) returns (res: Outcome<Bytes>)
      ensures res == EncodeRequest(Content())
      ensures res.Ok? ==> |res.value| == RequestLen(|service|, |methodName|, |payload|)
      ensures res.Ok? ==> DecodeRequest(res.value) == Ok(Content())
    {
      if |service| > UINT32_MAX || |methodName| > UINT32_MAX || |payload| > UINT32_MAX {
        return Err("service_ or method or payload out of capacity!");
      }
      var output := new byte[RequestLen(|service|, |methodName|, |payload|)];
      var index := PutHead(little, output, KIND_REQUEST, requestId);
      index := PutText(little, output, index, service);
      index := PutText(little, output, index, methodName);
      index := PutText(little, output, index, payload);
      assert output[..] == output[..index];
      Nest(Head(KIND_REQUEST), BigEndian(8, requestId), Text(service), Text(methodName), Text(payload));
      RequestBijection(output[..], Content());
      return Ok(output[..]);
    }

    static method Parse(little: bool, msg: Bytes) returns (res: Outcome<Request>)
      ensures res == DecodeRequest(msg)
    {
      var front := LoadFront(little, msg, KIND_REQUEST, "illegal request type");
      if front.Bad? {
        return Err(front.text);
      }
      var index, leftLen := 11, |msg| - 11;
      var ok, service, methodName, payload;
      ok, index, leftLen, service := LoadString(little, msg, index, leftLen, "service load error");
      if !ok {
        return Err("service load error");
      }
      ok, index, leftLen, methodName := LoadString(little, msg, index, leftLen, "method load error");
      if !ok {
        return Err("method load error");
      }
      ok, index, leftLen, payload := LoadString(little, msg, index, leftLen, "payload load error");
      if !ok {
        return Err("payload load error");
      }
      if leftLen != 0 {
        return Err("msg length too much");
      }
      return Ok(Request(front.value, service, methodName, payload));
    }

    /** On failure the object keeps its old content. */
    method Decode(little: bool, msg: Bytes) returns (res: Outcome<Request>)
      modifies this
      ensures res == DecodeRequest(msg)
      ensures res.Ok? ==> Content() == res.value && EncodeRequest(Content()) == Ok(msg)
      ensures res.Err? ==> unchanged(this)
    {
      res := Parse(little, msg);
      if res.Ok? {
        requestId, service, methodName, payload :=
          res.value.id, res.value.service, res.value.methodName, res.value.payload;
        RequestBijection(msg, res.value);
      }
    }
  }

  class RpcResponse {
    var requestId: u64
    var responseResult: nat
    var errorCode: u16
    var payload: Bytes
    var errorMessage: Bytes

    function Content(): Response
      reads this
    {
      Response(requestId, responseResult, errorCode, payload, errorMessage)
    }

    constructor (id: u64, result: nat, code: u16, payload: Bytes, errorMessage: Bytes)
      ensures Content() == Response(id, result, code, payload, errorMessage)
    {
      this.requestId, this.responseResult, this.errorCode := id, result, code;
      this.payload, this.errorMessage := payload, errorMessage;
    }

    method Encode(little: bool) returns (res: Outcome<Bytes>)
      ensures res == EncodeResponse(Content())
      ensures res.Ok? <==> ResponseEncodable(Content())
      ensures res.Ok? ==> |res.value| == ResponseLen(|payload|, |errorMessage|)
      ensures res.Ok? ==> DecodeResponse(res.value) == Ok(Content())
    {
      ResponseEncodeAccepts(Content());
      if |payload| > UINT32_MAX || |errorMessage| > UINT32_MAX {
        return Err("payload or error message out of capacity!");
      }
      if (responseResult == SUCCESS && errorMessage != []) || (responseResult == UNSUCCESS && payload != []) {
        return Err("traffic error!");
      }
      if responseResult != SUCCESS && responseResult != UNSUCCESS {
        return Err("illegal response result");
      }
      if errorCode >= ERROR_CODE_CNT {
        return Err("error code invalid");
      }
      if (responseResult == SUCCESS && errorCode != NO_ERROR)
         || (responseResult == UNSUCCESS && errorCode == NO_ERROR) {
        return Err("response result and error code not Compatible");
      }
      var bytes := Print(little, Content());
      ResponseBijection(bytes, Content());
      return Ok(bytes);
    }

    static method Print(little: bool, r: Response) returns (bytes: Bytes)
      requires ResponseEncodable(r)
      ensures bytes == ResponseWire(r)
      ensures |bytes| == ResponseLen(|r.payload|, |r.errorMessage|)
    {
      var output := new byte[ResponseLen(|r.payload|, |r.errorMessage|)];
      var index := PutHead(little, output, KIND_RESPONSE, r.id);
      index := PutStatus(little, output, index, r.result, r.code);
      index := PutText(little, output, index, r.payload);
      index := PutText(little, output, index, r.errorMessage);
      assert output[..] == output[..index];
      Nest(Head(KIND_RESPONSE), BigEndian(8, r.id), Status(r.result, r.code), Text(r.payload), Text(r.errorMessage));
      bytes := output[..];
    }

    static method Parse(little: bool, msg: Bytes) returns (res: Outcome<Response>)
      ensures res == DecodeResponse(msg)
    {
      var front := LoadFront(little, msg, KIND_RESPONSE, "illegal response type");
      if front.Bad? {
        return Err(front.text);
      }
      var status := LoadStatus(little, msg);
      if status.Bad? {
        return Err(status.text);
      }
      var index, leftLen := 14, |msg| - 14;
      var ok, payload, errorMessage;
      ok, index, leftLen, payload := LoadString(little, msg, index, leftLen, "payload load error");
      if !ok {
        return Err("payload load error");
      }
      ok, index, leftLen, errorMessage := LoadString(little, msg, index, leftLen, "error message load error");
      if !ok {
        return Err("error message load error");
      }
      if leftLen != 0 {
        return Err("msg length too much");
      }
      var success := status.value.0;
      if (success == SUCCESS && errorMessage != []) || (success == UNSUCCESS && payload != []) {
        return Err("数据格式出错");
      }
      return Ok(Response(front.value, success, status.value.1, payload, errorMessage));
    }

    /** On failure the object keeps its old content. */
    method Decode(little: bool, msg: Bytes) returns (res: Outcome<Response>)
      modifies this
      ensures res == DecodeResponse(msg)
      ensures res.Ok? ==> Content() == res.value && EncodeResponse(Content()) == Ok(msg)
      ensures res.Err? ==> unchanged(this)
    {
      res := Parse(little, msg);
      if res.Ok? {
        requestId, responseResult, errorCode := res.value.id, res.value.result, res.value.code;
        payload, errorMessage := res.value.payload, res.value.errorMessage;
        ResponseBijection(msg, res.value);
      }
    }

    /** Result byte and error code, at index 11. */
    static method LoadStatus(little: bool, data: Bytes) returns (status: Parsed<(nat, u16)>)
      requires |data| >= 11
      ensures status == ReadStatus(data[11..])
      ensures status.Got? ==> |data| >= 14 && status.rest == data[14..]
    {
      var index, leftLen := 11, |data| - 11;
      if leftLen < 1 {
        return Bad("response result length error");
      }
      var success := data[index];
      leftLen := leftLen - 1;
      index := index + 1;
      if success != SUCCESS && success != UNSUCCESS {
        return Bad("illegal response result");
      }
      if leftLen < 2 {
        return Bad("response result length error");
      }
      var code := GetUint(little, data, index, 2);
      Widths();
      assert data[11..][1..3] == data[12..14];
      assert data[11..][3..] == data[14..];
      if code >= ERROR_CODE_CNT {
        return Bad("error code invalid");
      }
      if (success == SUCCESS && code != NO_ERROR) || (success == UNSUCCESS && code == NO_ERROR) {
        return Bad("response result and error code not Compatible");
      }
      return Got((success as nat, code), data[14..]);
    }
  }

  class RpcCancel {
    var requestId: u64

    constructor (id: u64)
      ensures requestId == id
    {
      requestId := id;
    }

    method Encode(little: bool) returns (bytes: Bytes)
      ensures bytes == CancelWire(requestId)
      ensures |bytes| == 11 && DecodeCancel(bytes) == Ok(requestId)
    {
      var output := new byte[11];
      var index := PutHead(little, output, KIND_CANCEL, requestId);
      assert output[..] == output[..11];
      CancelBijection(output[..], requestId);
      bytes := output[..];
    }

    /** On failure the object keeps its old content. */
    method Decode(little: bool, msg: Bytes) returns (res: Outcome<u64>)
      modifies this
      ensures res == DecodeCancel(msg)
      ensures res.Ok? ==> requestId == res.value && msg == CancelWire(requestId)
      ensures res.Err? ==> unchanged(this) && forall id :: msg != CancelWire(id)
    {
      forall id {
        CancelBijection(msg, id);
      }
      var front := LoadFront(little, msg, KIND_CANCEL, "illegal cancel type");
      if front.Bad? {
        return Err(front.text);
      }
      if front.rest != [] {
        return Err("cancel length error");
      }
      requestId := front.value;
      return Ok(requestId);
    }
  }
}
