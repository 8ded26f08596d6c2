/** The wire format of src/RpcMessage.cc as parser and printer functions, and the proof that
    they are inverses. The objects that run them on a buffer are in RpcMessageObjects.dfy. */
module RpcMessage {
  import opened ByteOrder

  const VERSION := 2
  const UINT32_MAX := 0xFFFF_FFFF
  const KIND_REQUEST: byte := 0
  const KIND_RESPONSE: byte := 1
  const KIND_CANCEL: byte := 2

  /** `ResponseResult`; a handler can store any other number in the enum. */
  const SUCCESS := 0
  const UNSUCCESS := 1

  const NO_ERROR := 0
  const REQUEST_TIMEOUT := 1
  const REQUEST_CANCELED := 2
  const CONNECTION_CLOSED := 3
  const METHOD_NOT_FOUND := 4
  const BUSINESS_ERROR := 5
  const RECONNECT_TIMEOUT := 6
  const MESSAGE_TOO_LARGE := 7
  const RESOURCE_EXHAUSTED := 8
  const CONNECTION_UNAVAILABLE := 9
  const INTERNAL_ERROR := 10
  const ERROR_CODE_CNT := 11

  type u16 = x: int | 0 <= x <= 0xFFFF
  type u64 = x: int | 0 <= x <= 0xFFFF_FFFF_FFFF_FFFF

  datatype Request = Request(id: u64, service: Bytes, methodName: Bytes, payload: Bytes)
  datatype Response = Response(id: u64, result: nat, code: u16, payload: Bytes, errorMessage: Bytes)

  /** `LengthHeaderCodec::kMaxMessageSize`, 64 MiB. */
  const MAX_MESSAGE_SIZE := 0x400_0000

  function Ascii(s: string): (b: Bytes)
    ensures |b| == |s|
  {
    seq(|s|, i requires 0 <= i < |s| => if s[i] as int < 256 then s[i] as int else 63)
  }

  /** Success with a value, or failure with the text the source appends to its error string. */
  datatype Outcome<+T> = Ok(value: T) | Err(text: string)

  datatype Parsed<+T> = Got(value: T, rest: Bytes) | Bad(text: string)

  // ---------------------------------------------------------------- printer

  function Text(s: Bytes): Bytes {
    BigEndian(4, |s|) + s
  }

  function Head(kind: byte): (h: Bytes)
    ensures |h| == 3
  {
    BigEndian(2, VERSION) + [kind]
  }

  function RequestWire(r: Request): Bytes {
    Head(KIND_REQUEST) + (BigEndian(8, r.id) + (Text(r.service) + (Text(r.methodName) + Text(r.payload))))
  }

  function Status(result: nat, code: u16): Bytes
    requires result < 256
  {
    [result as byte] + BigEndian(2, code)
  }

  function ResponseWire(r: Response): Bytes
    requires r.result < 256
  {
    Head(KIND_RESPONSE)
    + (BigEndian(8, r.id) + (Status(r.result, r.code) + (Text(r.payload) + Text(r.errorMessage))))
  }

  function CancelWire(id: u64): Bytes {
    Head(KIND_CANCEL) + BigEndian(8, id)
  }

  function RequestLen(service: nat, methodName: nat, payload: nat): nat {
    2 + 1 + 8 + 4 + 4 + 4 + service + methodName + payload
  }

  function ResponseLen(payload: nat, errorMessage: nat): nat {
    2 + 1 + 8 + 1 + 2 + 4 + 4 + payload + errorMessage
  }

  predicate RequestEncodable(r: Request) {
    |r.service| <= UINT32_MAX && |r.methodName| <= UINT32_MAX && |r.payload| <= UINT32_MAX
  }

  /** A response says one consistent thing: success without error text, or a defined error without payload. */
  predicate WellShaped(r: Response) {
    (r.result == SUCCESS && r.code == NO_ERROR && r.errorMessage == [])
    || (r.result == UNSUCCESS && NO_ERROR < r.code < ERROR_CODE_CNT && r.payload == [])
  }

  predicate ResponseEncodable(r: Response) {
    |r.payload| <= UINT32_MAX && |r.errorMessage| <= UINT32_MAX && WellShaped(r)
  }

  function EncodeRequest(r: Request): Outcome<Bytes> {
    if |r.service| > UINT32_MAX || |r.methodName| > UINT32_MAX || |r.payload| > UINT32_MAX then
      Err("service_ or method or payload out of capacity!")
    else
      Ok(RequestWire(r))
  }

  function EncodeResponse(r: Response): Outcome<Bytes> {
    if |r.payload| > UINT32_MAX || |r.errorMessage| > UINT32_MAX then
      Err("payload or error message out of capacity!")
    else if (r.result == SUCCESS && r.errorMessage != []) || (r.result == UNSUCCESS && r.payload != []) then
      Err("traffic error!")
    else if r.result != SUCCESS && r.result != UNSUCCESS then
      Err("illegal response result")
    else if r.code >= ERROR_CODE_CNT then
      Err("error code invalid")
    else if (r.result == SUCCESS && r.code != NO_ERROR) || (r.result == UNSUCCESS && r.code == NO_ERROR) then
      Err("response result and error code not Compatible")
    else
      Ok(ResponseWire(r))
  }

  // ----------------------------------------------------------------- parser

  function ReadUint(n: nat, s: Bytes, text: string): Parsed<nat> {
    if |s| < n then Bad(text) else Got(Value(s[..n]), s[n..])
  }

  function ReadText(s: Bytes, text: string): Parsed<Bytes> {
    if |s| < 4 then Bad(text)
    else
      var length := Value(s[..4]);
      if |s| - 4 < length then Bad(text) else Got(s[4..4 + length], s[4 + length..])
  }

  /** Version and type of a message of the given kind. */
  function ReadHead(kind: byte, s: Bytes, wrongKind: string): (p: Parsed<()>)
    ensures p.Got? ==> |s| >= 3 && p.rest == s[3..]
  {
    if |s| == 0 then Bad("length <= 0")
    else if |s| < 2 then Bad("version length error")
    else if Value(s[..2]) != VERSION then Bad("unsupported rpc protocol version")
    else if |s| < 3 then Bad("type length error")
    else if s[2] != kind then Bad(wrongKind)
    else Got((), s[3..])
  }

  function ReadId(s: Bytes): (p: Parsed<u64>)
  {
    match ReadUint(8, s, "request id length error")
    case Bad(text) => Bad(text)
    case Got(id, rest) => ValueBound(s[..8]); Widths(); Got(id, rest)
  }

  function ReadRequest(s: Bytes): Parsed<Request> {
    match ReadHead(KIND_REQUEST, s, "illegal request type")
    case Bad(text) => Bad(text)
    case Got(_, s1) =>
    match ReadId(s1)
    case Bad(text) => Bad(text)
    case Got(id, s2) =>
    match ReadText(s2, "service load error")
    case Bad(text) => Bad(text)
    case Got(service, s3) =>
    match ReadText(s3, "method load error")
    case Bad(text) => Bad(text)
    case Got(methodName, s4) =>
    match ReadText(s4, "payload load error")
    case Bad(text) => Bad(text)
    case Got(payload, s5) => Got(Request(id, service, methodName, payload), s5)
  }

  /** The result byte and error code of a response. */
  function ReadStatus(s: Bytes): (p: Parsed<(nat, u16)>)
  {
    if |s| < 1 then Bad("response result length error")
    else if s[0] != SUCCESS && s[0] != UNSUCCESS then Bad("illegal response result")
    else if |s| < 3 then Bad("response result length error")
    else
      ValueBound(s[1..3]); Widths();
      var code := Value(s[1..3]);
      if code >= ERROR_CODE_CNT then Bad("error code invalid")
      else if (s[0] == SUCCESS && code != NO_ERROR) || (s[0] == UNSUCCESS && code == NO_ERROR) then
        Bad("response result and error code not Compatible")
      else Got((s[0] as nat, code), s[3..])
  }

  function ReadResponse(s: Bytes): Parsed<Response> {
    match ReadHead(KIND_RESPONSE, s, "illegal response type")
    case Bad(text) => Bad(text)
    case Got(_, s1) =>
    match ReadId(s1)
    case Bad(text) => Bad(text)
    case Got(id, s2) =>
    match ReadStatus(s2)
    case Bad(text) => Bad(text)
    case Got(status, s3) =>
    match ReadText(s3, "payload load error")
    case Bad(text) => Bad(text)
    case Got(payload, s4) =>
    match ReadText(s4, "error message load error")
    case Bad(text) => Bad(text)
    case Got(errorMessage, s5) => Got(Response(id, status.0, status.1, payload, errorMessage), s5)
  }

  function DecodeRequest(msg: Bytes): Outcome<Request> {
    match ReadRequest(msg)
    case Bad(text) => Err(text)
    case Got(r, rest) => if rest != [] then Err("msg length too much") else Ok(r)
  }

  function DecodeResponse(msg: Bytes): Outcome<Response> {
    match ReadResponse(msg)
    case Bad(text) => Err(text)
    case Got(r, rest) =>
      if rest != [] then Err("msg length too much")
      else if (r.result == SUCCESS && r.errorMessage != []) || (r.result == UNSUCCESS && r.payload != []) then
        Err("数据格式出错")
      else Ok(r)
  }

  function DecodeCancel(msg: Bytes): Outcome<u64> {
    match ReadHead(KIND_CANCEL, msg, "illegal cancel type")
    case Bad(text) => Err(text)
    case Got(_, s1) =>
    match ReadId(s1)
    case Bad(text) => Err(text)
    case Got(id, rest) => if rest != [] then Err("cancel length error") else Ok(id)
  }

  /** The message type byte, or nothing when the header is unusable. */
  function DecodeHead(msg: Bytes): Outcome<byte> {
    if |msg| < 3 || Value(msg[..2]) != VERSION then Err("")
    else if msg[2] != KIND_REQUEST && msg[2] != KIND_RESPONSE && msg[2] != KIND_CANCEL then Err("")
    else Ok(msg[2])
  }

  // ------------------------------------------- every field is read back whole

  lemma ReadUintOfBigEndian(n: nat, v: nat, rest: Bytes, text: string)
    requires v < Pow256(n)
    ensures ReadUint(n, BigEndian(n, v) + rest, text) == Got(v, rest)
  {
    ValueOfBigEndian(n, v);
    assert (BigEndian(n, v) + rest)[..n] == BigEndian(n, v);
    assert (BigEndian(n, v) + rest)[n..] == rest;
  }

  lemma ReadIdOfBigEndian(id: u64, rest: Bytes)
    ensures ReadId(BigEndian(8, id) + rest) == Got(id, rest)
  {
    Widths();
    ReadUintOfBigEndian(8, id, rest, "request id length error");
  }

  lemma ReadIdInverse(s: Bytes)
    requires ReadId(s).Got?
    ensures s == BigEndian(8, ReadId(s).value) + ReadId(s).rest
  {
    BigEndianOfValue(s[..8]);
  }

  lemma ReadTextOfText(a: Bytes, rest: Bytes, text: string)
    requires |a| <= UINT32_MAX
    ensures ReadText(Text(a) + rest, text) == Got(a, rest)
  {
    Widths();
    ValueOfBigEndian(4, |a|);
    var s := Text(a) + rest;
    assert s[..4] == BigEndian(4, |a|);
    assert s[4..4 + |a|] == a;
    assert s[4 + |a|..] == rest;
  }

  lemma ReadTextInverse(s: Bytes, text: string)
    requires ReadText(s, text).Got?
    ensures |ReadText(s, text).value| <= UINT32_MAX
    ensures s == Text(ReadText(s, text).value) + ReadText(s, text).rest
  {
    Widths();
    ValueBound(s[..4]);
    BigEndianOfValue(s[..4]);
  }

  lemma ReadHeadOfHead(kind: byte, rest: Bytes, text: string)
    ensures ReadHead(kind, Head(kind) + rest, text) == Got((), rest)
  {
    Widths();
    ValueOfBigEndian(2, VERSION);
    var s := Head(kind) + rest;
    assert s[..2] == BigEndian(2, VERSION);
    assert s[2] == kind;
    assert s[3..] == rest;
  }

  lemma ReadHeadInverse(kind: byte, s: Bytes, text: string)
    requires ReadHead(kind, s, text).Got?
    ensures s == Head(kind) + s[3..]
  {
    BigEndianOfValue(s[..2]);
    assert s == s[..2] + [s[2]] + s[3..];
  }

  lemma ReadStatusOfFields(result: nat, code: u16, rest: Bytes)
    requires result == SUCCESS || result == UNSUCCESS
    requires code < ERROR_CODE_CNT
    requires result == SUCCESS <==> code == NO_ERROR
    ensures ReadStatus(Status(result, code) + rest) == Got((result, code), rest)
  {
    Widths();
    ValueOfBigEndian(2, code);
    var s := Status(result, code) + rest;
    assert s[1..3] == BigEndian(2, code);
    assert s[3..] == rest;
  }

  lemma ReadStatusInverse(s: Bytes)
    requires ReadStatus(s).Got?
    ensures var v := ReadStatus(s).value;
            && (v.0 == SUCCESS || v.0 == UNSUCCESS)
            && v.1 < ERROR_CODE_CNT
            && (v.0 == SUCCESS <==> v.1 == NO_ERROR)
            && s == Status(v.0, v.1) + ReadStatus(s).rest
  {
    BigEndianOfValue(s[1..3]);
    assert s == [s[0]] + s[1..3] + s[3..];
  }

  // ------------------------------------------------- whole messages are read back whole

  lemma Regroup(a: Bytes, b: Bytes, c: Bytes, d: Bytes, e: Bytes, tail: Bytes)
    ensures (a + (b + (c + (d + e)))) + tail == a + (b + (c + (d + (e + tail))))
  {
    assert (d + e) + tail == d + (e + tail);
    assert (c + (d + e)) + tail == c + (d + (e + tail));
  }

  lemma ReadRequestOfWire(r: Request, tail: Bytes)
    requires RequestEncodable(r)
    ensures ReadRequest(RequestWire(r) + tail) == Got(r, tail)
  {
    var s4 := Text(r.payload) + tail;
    var s3 := Text(r.methodName) + s4;
    var s2 := Text(r.service) + s3;
    var s1 := BigEndian(8, r.id) + s2;
    Regroup(Head(KIND_REQUEST), BigEndian(8, r.id), Text(r.service), Text(r.methodName), Text(r.payload), tail);
    ReadHeadOfHead(KIND_REQUEST, s1, "illegal request type");
    ReadIdOfBigEndian(r.id, s2);
    ReadTextOfText(r.service, s3, "service load error");
    ReadTextOfText(r.methodName, s4, "method load error");
    ReadTextOfText(r.payload, tail, "payload load error");
  }

  lemma ReadRequestInverse(s: Bytes)
    requires ReadRequest(s).Got?
    ensures RequestEncodable(ReadRequest(s).value)
    ensures s == RequestWire(ReadRequest(s).value) + ReadRequest(s).rest
  {
    var r := ReadRequest(s).value;
    ReadHeadInverse(KIND_REQUEST, s, "illegal request type");
    var s1 := s[3..];
    ReadIdInverse(s1);
    var s2 := ReadId(s1).rest;
    ReadTextInverse(s2, "service load error");
    var s3 := ReadText(s2, "service load error").rest;
    ReadTextInverse(s3, "method load error");
    var s4 := ReadText(s3, "method load error").rest;
    ReadTextInverse(s4, "payload load error");
    var s5 := ReadText(s4, "payload load error").rest;
    Regroup(Head(KIND_REQUEST), BigEndian(8, r.id), Text(r.service), Text(r.methodName), Text(r.payload), s5);
  }

  lemma ReadResponseOfWire(r: Response, tail: Bytes)
    requires ResponseEncodable(r)
    ensures ReadResponse(ResponseWire(r) + tail) == Got(r, tail)
  {
    var s4 := Text(r.errorMessage) + tail;
    var s3 := Text(r.payload) + s4;
    var s2 := Status(r.result, r.code) + s3;
    var s1 := BigEndian(8, r.id) + s2;
    Regroup(Head(KIND_RESPONSE), BigEndian(8, r.id), Status(r.result, r.code), Text(r.payload),
            Text(r.errorMessage), tail);
    ReadHeadOfHead(KIND_RESPONSE, s1, "illegal response type");
    ReadIdOfBigEndian(r.id, s2);
    ReadStatusOfFields(r.result, r.code, s3);
    ReadTextOfText(r.payload, s4, "payload load error");
    ReadTextOfText(r.errorMessage, tail, "error message load error");
  }

  lemma ReadResponseInverse(s: Bytes)
    requires ReadResponse(s).Got?
    ensures var r := ReadResponse(s).value;
            && |r.payload| <= UINT32_MAX && |r.errorMessage| <= UINT32_MAX
            && (r.result == SUCCESS || r.result == UNSUCCESS)
            && r.code < ERROR_CODE_CNT
            && (r.result == SUCCESS <==> r.code == NO_ERROR)
            && s == ResponseWire(r) + ReadResponse(s).rest
  {
    var r := ReadResponse(s).value;
    ReadHeadInverse(KIND_RESPONSE, s, "illegal response type");
    var s1 := s[3..];
    ReadIdInverse(s1);
    var s2 := ReadId(s1).rest;
    ReadStatusInverse(s2);
    var s3 := ReadStatus(s2).rest;
    ReadTextInverse(s3, "payload load error");
    var s4 := ReadText(s3, "payload load error").rest;
    ReadTextInverse(s4, "error message load error");
    var s5 := ReadText(s4, "error message load error").rest;
    Regroup(Head(KIND_RESPONSE), BigEndian(8, r.id), Status(r.result, r.code), Text(r.payload),
            Text(r.errorMessage), s5);
  }

  // ------------------------------------------------------------ main results

  /** Exactly the printed messages are accepted, and each is read as the request it prints. */
  lemma RequestBijection(msg: Bytes, r: Request)
    ensures DecodeRequest(msg) == Ok(r) <==> EncodeRequest(r) == Ok(msg)
    ensures EncodeRequest(r).Ok? <==> RequestEncodable(r)
  {
    if RequestEncodable(r) {
      ReadRequestOfWire(r, []);
      assert RequestWire(r) + [] == RequestWire(r);
    }
    if ReadRequest(msg).Got? {
      ReadRequestInverse(msg);
      assert ReadRequest(msg).rest == [] ==> msg == RequestWire(ReadRequest(msg).value);
    }
  }

  lemma ResponseBijection(msg: Bytes, r: Response)
    ensures DecodeResponse(msg) == Ok(r) <==> EncodeResponse(r) == Ok(msg)
    ensures EncodeResponse(r).Ok? <==> ResponseEncodable(r)
  {
    ResponseEncodeAccepts(r);
    if EncodeResponse(r) == Ok(msg) {
      ReadResponseOfWire(r, []);
      assert ResponseWire(r) + [] == ResponseWire(r);
    }
    if DecodeResponse(msg) == Ok(r) {
      ReadResponseInverse(msg);
      assert ResponseWire(r) + [] == ResponseWire(r);
      assert ResponseEncodable(r);
    }
  }

  /** The printer's five checks accept exactly the consistent responses whose texts fit 32-bit lengths. */
  lemma ResponseEncodeAccepts(r: Response)
    ensures EncodeResponse(r).Ok? <==> ResponseEncodable(r)
    ensures ResponseEncodable(r) ==> EncodeResponse(r) == Ok(ResponseWire(r))
  {}

  lemma CancelBijection(msg: Bytes, id: u64)
    ensures DecodeCancel(msg) == Ok(id) <==> msg == CancelWire(id)
  {
    ReadHeadOfHead(KIND_CANCEL, BigEndian(8, id), "illegal cancel type");
    ReadIdOfBigEndian(id, []);
    assert BigEndian(8, id) + [] == BigEndian(8, id);
    if ReadHead(KIND_CANCEL, msg, "illegal cancel type").Got? {
      ReadHeadInverse(KIND_CANCEL, msg, "illegal cancel type");
      if ReadId(msg[3..]).Got? {
        ReadIdInverse(msg[3..]);
      }
    }
  }

  /** A length-prefixed text stands at position `at`. */
  predicate TextAt(w: Bytes, at: nat, text: Bytes) {
    at + 4 + |text| <= |w| && Value(w[at..at + 4]) == |text| && w[at + 4..at + 4 + |text|] == text
  }

  lemma TextStands(before: Bytes, text: Bytes, after: Bytes)
    requires |text| <= UINT32_MAX
    ensures TextAt(before + (Text(text) + after), |before|, text)
  {
    Widths();
    ValueOfBigEndian(4, |text|);
    var w := before + (Text(text) + after);
    assert w[|before|..|before| + 4] == BigEndian(4, |text|);
    assert w[|before| + 4..|before| + 4 + |text|] == text;
  }

  lemma TextEnds(before: Bytes, text: Bytes)
    requires |text| <= UINT32_MAX
    ensures TextAt(before + Text(text), |before|, text)
  {
    TextStands(before, text, []);
    assert Text(text) + [] == Text(text);
  }

  lemma TwoTextsStand(before: Bytes, at: nat, a: Bytes, b: Bytes)
    requires |a| <= UINT32_MAX && |b| <= UINT32_MAX && at == |before|
    ensures var w := before + (Text(a) + Text(b));
            TextAt(w, at, a) && TextAt(w, at + 4 + |a|, b) && |w| == at + 8 + |a| + |b|
  {
    TextStands(before, a, Text(b));
    Associate(before, Text(a), Text(b));
    TextEnds(before + Text(a), b);
  }

  lemma ThreeTextsStand(before: Bytes, at: nat, a: Bytes, b: Bytes, c: Bytes)
    requires |a| <= UINT32_MAX && |b| <= UINT32_MAX && |c| <= UINT32_MAX && at == |before|
    ensures var w := before + (Text(a) + (Text(b) + Text(c)));
            && TextAt(w, at, a) && TextAt(w, at + 4 + |a|, b) && TextAt(w, at + 4 + |a| + 4 + |b|, c)
            && |w| == at + 4 + |a| + 4 + |b| + 4 + |c|
  {
    TextStands(before, a, Text(b) + Text(c));
    Associate(before, Text(a), Text(b) + Text(c));
    TwoTextsStand(before + Text(a), at + 4 + |a|, b, c);
  }

  lemma StatusStands(before: Bytes, result: nat, code: u16, after: Bytes)
    requires result < 256
    ensures var w, at := before + (Status(result, code) + after), |before|;
            w[at] == result && Value(w[at + 1..at + 3]) == code
  {
    Widths();
    ValueOfBigEndian(2, code);
    var w := before + (Status(result, code) + after);
    assert w[|before| + 1..|before| + 3] == BigEndian(2, code);
  }

  lemma Associate(a: Bytes, b: Bytes, c: Bytes)
    ensures a + (b + c) == (a + b) + c
  {}

  lemma HeadStands(kind: byte, id: u64, rest: Bytes)
    ensures var w := Head(kind) + (BigEndian(8, id) + rest);
            Value(w[..2]) == 2 && w[2] == kind && Value(w[3..11]) == id && w[11..] == rest
  {
    Widths();
    ValueOfBigEndian(2, VERSION);
    ValueOfBigEndian(8, id);
    var w := Head(kind) + (BigEndian(8, id) + rest);
    assert w[..2] == BigEndian(2, VERSION) && w[3..11] == BigEndian(8, id);
  }

  /** The documented fields, in order and at their places: version 2, type 0, the id in 8 bytes, then service, method
      and payload, each behind its length in 4 bytes. */
  lemma RequestLayout(r: Request)
    requires RequestEncodable(r)
    ensures var w := RequestWire(r); var m := 11 + 4 + |r.service|; var p := m + 4 + |r.methodName|;
            && Value(w[..2]) == 2 && w[2] == 0 && Value(w[3..11]) == r.id
            && TextAt(w, 11, r.service) && TextAt(w, m, r.methodName) && TextAt(w, p, r.payload)
            && |w| == p + 4 + |r.payload|
  {
    var rest := Text(r.service) + (Text(r.methodName) + Text(r.payload));
    HeadStands(KIND_REQUEST, r.id, rest);
    Associate(Head(KIND_REQUEST), BigEndian(8, r.id), rest);
    ThreeTextsStand(Head(KIND_REQUEST) + BigEndian(8, r.id), 11, r.service, r.methodName, r.payload);
  }

  /** The same for responses: type 1, the id, one byte for the result, two for the error code, payload, error text. */
  lemma ResponseLayout(r: Response)
    requires ResponseEncodable(r)
    ensures var w := ResponseWire(r); var e := 18 + |r.payload|;
            && Value(w[..2]) == 2 && w[2] == 1 && Value(w[3..11]) == r.id && w[11] == r.result
            && Value(w[12..14]) == r.code && TextAt(w, 14, r.payload) && TextAt(w, e, r.errorMessage)
            && |w| == e + 4 + |r.errorMessage|
  {
    var texts := Text(r.payload) + Text(r.errorMessage);
    HeadStands(KIND_RESPONSE, r.id, Status(r.result, r.code) + texts);
    Associate(Head(KIND_RESPONSE), BigEndian(8, r.id), Status(r.result, r.code) + texts);
    StatusStands(Head(KIND_RESPONSE) + BigEndian(8, r.id), r.result, r.code, texts);
    Associate(Head(KIND_RESPONSE) + BigEndian(8, r.id), Status(r.result, r.code), texts);
    TwoTextsStand(Head(KIND_RESPONSE) + BigEndian(8, r.id) + Status(r.result, r.code), 14, r.payload, r.errorMessage);
  }

  /** A cancel is version 2, type 2 and the id. */
  lemma CancelLayout(id: u64)
    ensures var w := CancelWire(id); |w| == 11 && Value(w[..2]) == 2 && w[2] == 2 && Value(w[3..11]) == id
  {
    HeadStands(KIND_CANCEL, id, []);
    assert CancelWire(id) == Head(KIND_CANCEL) + (BigEndian(8, id) + []);
  }

  /** Encoded lengths are what `OutputMessageLen` announces; a cancel has 11 bytes. */
  lemma WireLengths(r: Request, p: Response, id: u64)
    ensures |RequestWire(r)| == RequestLen(|r.service|, |r.methodName|, |r.payload|)
    ensures p.result < 256 ==> |ResponseWire(p)| == ResponseLen(|p.payload|, |p.errorMessage|)
    ensures |CancelWire(id)| == 11
  {}

  /** No accepted message continues another of its type: a message ends where it says it ends. */
  lemma PrefixFree(a: Bytes, b: Bytes)
    requires a <= b
    ensures DecodeRequest(a).Ok? && DecodeRequest(b).Ok? ==> a == b
    ensures DecodeResponse(a).Ok? && DecodeResponse(b).Ok? ==> a == b
    ensures DecodeCancel(a).Ok? && DecodeCancel(b).Ok? ==> a == b
  {
    var tail := b[|a|..];
    assert b == a + tail;
    if DecodeRequest(a).Ok? && DecodeRequest(b).Ok? {
      RequestBijection(a, DecodeRequest(a).value);
      ReadRequestOfWire(DecodeRequest(a).value, tail);
    }
    if DecodeResponse(a).Ok? && DecodeResponse(b).Ok? {
      ResponseBijection(a, DecodeResponse(a).value);
      ReadResponseOfWire(DecodeResponse(a).value, tail);
    }
    if DecodeCancel(a).Ok? && DecodeCancel(b).Ok? {
      CancelBijection(a, DecodeCancel(a).value);
      CancelBijection(b, DecodeCancel(b).value);
    }
  }

  /** At most one decoder accepts a byte string, and `decodeHead` names it. */
  lemma HeadNamesDecoder(msg: Bytes)
    ensures DecodeRequest(msg).Ok? ==> DecodeHead(msg) == Ok(KIND_REQUEST)
    ensures DecodeResponse(msg).Ok? ==> DecodeHead(msg) == Ok(KIND_RESPONSE)
    ensures DecodeCancel(msg).Ok? ==> DecodeHead(msg) == Ok(KIND_CANCEL)
    ensures DecodeHead(msg) == Ok(KIND_REQUEST) ==> DecodeResponse(msg).Err? && DecodeCancel(msg).Err?
    ensures DecodeHead(msg) == Ok(KIND_RESPONSE) ==> DecodeRequest(msg).Err? && DecodeCancel(msg).Err?
    ensures DecodeHead(msg) == Ok(KIND_CANCEL) ==> DecodeRequest(msg).Err? && DecodeResponse(msg).Err?
    ensures DecodeHead(msg).Err? ==> DecodeRequest(msg).Err? && DecodeResponse(msg).Err? && DecodeCancel(msg).Err?
  {}
}
