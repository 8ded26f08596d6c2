/** The client of src/RpcClient.cc as a state machine over its event-loop steps.

    C++ runs user callbacks in the middle of its methods, and they may call back into the client.
    The model makes the C++ call stack explicit: `stack` holds what each method in progress still has
    to do, every stretch of code between two callbacks is one event, and while `UserCode` is on top
    the application may do anything a callback may do. */
module ClientModel {
  import opened ByteOrder
  import opened Options
  import opened RpcMessage

  type Id = u64
  type Conn = nat
  type u8 = x: int | 0 <= x < 256

  const ONE_MINUTE := 60000

  datatype Config = Config(
    maxPending: Option<nat>, maxMessageSize: Option<nat>, defaultReconnectTimeout: nat, defaultResendLimit: u8)
  {
    /** What the setters assert. */
    predicate Valid() {
      && (maxPending.Some? ==> maxPending.value > 0)
      && (maxMessageSize.Some? ==> 0 < maxMessageSize.value <= MAX_MESSAGE_SIZE)
      && defaultReconnectTimeout > 0
    }

    function MaxSize(): nat {
      maxMessageSize.ValueOr(MAX_MESSAGE_SIZE)
    }
  }

  datatype Status = Disconnected | Connecting | Disconnecting | Connected
  datatype Phase = WaitingResponse | WaitingReconnect

  datatype Body = Body(service: Bytes, methodName: Bytes, payload: Bytes)

  /** The arguments of `call`; `callback` names the user's function. */
  datatype Args = Args(
    body: Body, callback: nat, timeout: nat, allowReconnect: bool, reconnectTimeout: nat, resendLimit: Option<u8>)

  /** A timer of the event loop, due `after` so many milliseconds; the serial number tells apart timers set at
      different moments. */
  datatype TimerKind = RequestTimer | ReconnectTimer
  datatype Timer = Timer(kind: TimerKind, id: Id, serial: nat, after: nat)

  datatype Pending = Pending(
    body: Body, callback: nat, requestTimeout: nat, allowReconnect: bool, phase: Phase,
    remainingResends: u8, reconnectTimeout: nat, timerId: Option<Timer>)

  /** The texts of the client's own failures. */
  datatype Notice =
    | TooLarge | TooManyPending | EncodeError | EncodeCapacity | NotConnected
    | Canceled | Closed | Unavailable | TimedOut | ReconnectTimedOut

  function Spelled(n: Notice): string {
    match n
    case TooLarge => "rpc message too large"
    case TooManyPending => "too many pending requests"
    case EncodeError => "encode error"
    case EncodeCapacity => "service_ or method or payload out of capacity!"
    case NotConnected => "connection not connected"
    case Canceled => "rpc request canceled"
    case Closed => "connect closed"
    case Unavailable => "connection error"
    case TimedOut => "rpc request timeout"
    case ReconnectTimedOut => "rpc reconnect timeout"
  }

  /** A response from the server, or a failure the client reports itself. */
  datatype Reply = Received(response: Response) | Failed(code: u16, notice: Notice)

  /** A user callback with what it is called with. */
  datatype Delivery = Delivery(callback: nat, id: Id, reply: Reply)

  /** The `RpcResponse` object the callback sees. */
  function Delivered(d: Delivery): Response {
    match d.reply
    case Received(r) => r
    case Failed(code, notice) => Response(d.id, UNSUCCESS, code, [], Ascii(Spelled(notice)))
  }

  /** What a method in progress still has to do. */
  datatype Frame =
    | Callbacks(todo: map<Id, Delivery>, ordered: bool)
    | UserCode
    | AfterUp(conn: Conn)
    | Resend(conn: Conn, ids: set<Id>)
    | AfterDown
    | AfterError

  datatype Stack = Bottom | Push(top: Frame, below: Stack)

  datatype Msg = MRequest(request: Request) | MCancel(id: Id)

  /** The life of an admitted request: what was asked, and how its resend budget was used. */
  datatype Ledger = Ledger(
    body: Body, timeout: nat, limit: nat, resends: nat, waits: nat, moves: nat, sentOn: set<Conn>)

  /** What happened so far. Nothing here influences the client. */
  datatype History = History(
    issued: map<Id, nat>,          // callback of every id handed out
    fired: seq<Delivery>,          // callbacks called, in order
    out: map<Conn, seq<Msg>>,      // messages sent on every connection
    ledger: map<Id, Ledger>,
    answered: set<Id>,             // ids answered on the current connection
    forgot: set<Id>,               // ids the client stopped tracking on it without an answer
    nextConn: Conn,
    unknownCloses: nat,
    malformedCloses: nat)

  datatype State = State(
    cfg: Config, status: Status, conn: Option<Conn>, up: bool, manual: bool,
    nextId: nat, queued: map<Id, Args>, pending: map<Id, Pending>, ignored: map<Id, nat>,
    timers: set<Timer>, serial: nat, stack: Stack, h: History)

  /** What the application does: from any thread, between events, or inside a callback. */
  datatype UserEvent =
    | Issue(args: Args)                  // call(), on any thread
    | StartCall(id: Id)                  // callInLoop
    | Cancel(id: Id, now: nat)           // cancelInLoop
    | Connect
    | Disconnect

  /** What the event loop reports. */
  datatype LoopEvent =
    | Up | Down | ConnError
    | LinkDrop                           // conn->connected() becomes false
    | Message(answer: Outcome<Response>) // a received message, as `ParseResponse` reads it
    | TimerFires(timer: Timer, now: nat)
    | Sweep(now: nat)

  /** How methods in progress go on. */
  datatype FrameEvent =
    | Fire(id: Id)                       // the next callback of a failure loop starts
    | ResendNext(id: Id)                 // one round of the resend loop
    | Resume                             // the top frame goes on or ends

  datatype Event = User(u: UserEvent) | Loop(l: LoopEvent) | Inside(f: FrameEvent)

  predicate Init(s: State) {
    && s.cfg.Valid()
    && s == State(s.cfg, Disconnected, None, false, false, 1, map[], map[], map[], {}, 0, Bottom,
                  History(map[], [], map[], map[], {}, {}, 0, 0, 0))
  }

  // ------------------------------------------------------------ small pieces

  function MakeRequest(id: Id, body: Body): Request {
    Request(id, body.service, body.methodName, body.payload)
  }

  function BodyLen(body: Body): nat {
    RequestLen(|body.service|, |body.methodName|, |body.payload|)
  }

  /** Whether the request can be encoded at all: `EncodeRequest` fails exactly when it cannot. */
  predicate Encodes(body: Body) {
    |body.service| <= UINT32_MAX && |body.methodName| <= UINT32_MAX && |body.payload| <= UINT32_MAX
  }

  /** `uint8_t` decrement, with its wrap-around. */
  function Decrement(x: u8): u8 {
    if x == 0 then 255 else x - 1
  }

  predicate CanRunUser(s: State) {
    s.stack.Bottom? || s.stack.top.UserCode?
  }

  /** The test of the resend loop: still the same, connected connection. */
  predicate Usable(s: State, c: Conn) {
    s.conn == Some(c) && s.status == Connected && s.up
  }

  function WithoutTimer(timers: set<Timer>, timer: Option<Timer>): set<Timer> {
    if timer.Some? then timers - {timer.value} else timers
  }

  function Sent(h: History, c: Conn): seq<Msg> {
    if c in h.out then h.out[c] else []
  }

  function SendOn(h: History, c: Conn, msg: Msg): History {
    h.(out := h.out[c := Sent(h, c) + [msg]])
  }

  function Calling(s: State, id: Id, callback: nat, reply: Reply): State {
    s.(stack := Push(Callbacks(map[id := Delivery(callback, id, reply)], false), s.stack))
  }

  // --------------------------------------------------------------- call, cancel

  /** `nextRequestId_.fetch_add(1)`: the 64-bit counter wraps around to 0. */
  function NextId(s: State): Id {
    if s.nextId > 0xFFFF_FFFF_FFFF_FFFF then 0 else s.nextId
  }

  function IssueStep(s: State, args: Args): State {
    s.(nextId := NextId(s) + 1,
       queued := s.queued[NextId(s) := args],
       h := s.h.(issued := s.h.issued[NextId(s) := args.callback]))
  }

  /** The request is sent for the first time and gets its ledger. */
  function Admitted(h: History, id: Id, body: Body, timeout: nat, limit: nat, c: Conn): History {
    SendOn(h, c, MRequest(MakeRequest(id, body))).(ledger := h.ledger[id := Ledger(body, timeout, limit, 0, 0, 0, {c})])
  }

  function AdmitStep(s: State, id: Id, args: Args, c: Conn): State {
    var limit := args.resendLimit.ValueOr(s.cfg.defaultResendLimit);
    var reconnectTimeout :=
      if args.allowReconnect && args.reconnectTimeout == 0 then s.cfg.defaultReconnectTimeout
      else args.reconnectTimeout;
    var timer := Timer(RequestTimer, id, s.serial, args.timeout);
    var p := Pending(args.body, args.callback, args.timeout, args.allowReconnect && limit != 0, WaitingResponse,
                     limit, reconnectTimeout, if args.timeout > 0 then Some(timer) else None);
    s.(queued := s.queued - {id},
       pending := s.pending[id := p],
       timers := if args.timeout > 0 then s.timers + {timer} else s.timers,
       serial := s.serial + 1,
       h := Admitted(s.h, id, args.body, args.timeout, limit, c))
  }

  /** Why `callInLoop` turns a request down, if it does. */
  function Refusal(s: State, body: Body): Option<Reply> {
    if s.status == Connected && s.conn.Some? && s.up then
      if BodyLen(body) > s.cfg.MaxSize() then Some(Failed(MESSAGE_TOO_LARGE, TooLarge))
      else if s.cfg.maxPending.Some? && |s.pending| >= s.cfg.maxPending.value then
        Some(Failed(RESOURCE_EXHAUSTED, TooManyPending))
      else if !Encodes(body) then Some(Failed(INTERNAL_ERROR, EncodeError))
      else None
    else Some(Failed(CONNECTION_UNAVAILABLE, NotConnected))
  }

  function RejectStep(s: State, id: Id, args: Args, reply: Reply): State {
    Calling(s.(queued := s.queued - {id}), id, args.callback, reply)
  }

  function StartCallStep(s: State, id: Id): State
    requires id in s.queued
  {
    var args := s.queued[id];
    match Refusal(s, args.body)
    case Some(reply) => RejectStep(s, id, args, reply)
    case None => AdmitStep(s, id, args, s.conn.value)
  }

  function SendCancel(s: State, id: Id): State {
    if s.conn.Some? && s.up then s.(h := SendOn(s.h, s.conn.value, MCancel(id))) else s
  }

  /** Give up on a request but remember that its answer may still arrive; shared by cancel and timeout. */
  function AbandonStep(s: State, id: Id, now: nat, code: u16, notice: Notice): State
    requires id in s.pending
  {
    var s1 := SendCancel(s.(pending := s.pending - {id}, ignored := s.ignored[id := now + ONE_MINUTE]), id);
    Calling(s1, id, s.pending[id].callback, Failed(code, notice))
  }

  function CancelStep(s: State, id: Id, now: nat): State {
    if id !in s.pending then s
    else
      AbandonStep(s.(timers := WithoutTimer(s.timers, s.pending[id].timerId)), id, now,
                  REQUEST_CANCELED, Canceled)
  }

  // -------------------------------------------------------------- bulk failures

  function PendingTimers(pending: map<Id, Pending>): set<Timer> {
    set id | id in pending && pending[id].timerId.Some? :: pending[id].timerId.value
  }

  function Failures(pending: map<Id, Pending>, ids: set<Id>, code: u16, notice: Notice): map<Id, Delivery>
    requires ids <= pending.Keys
  {
    map id | id in ids :: Delivery(pending[id].callback, id, Failed(code, notice))
  }

  function FailAllPending(s: State, code: u16, notice: Notice): State {
    s.(pending := map[],
       timers := s.timers - PendingTimers(s.pending),
       stack := Push(Callbacks(Failures(s.pending, s.pending.Keys, code, notice), false), s.stack))
  }

  predicate Keeps(p: Pending) {
    p.phase == WaitingResponse && p.allowReconnect && p.remainingResends != 0
  }

  predicate Fails(p: Pending) {
    p.phase == WaitingResponse && !(p.allowReconnect && p.remainingResends != 0)
  }

  function Failing(pending: map<Id, Pending>): set<Id> {
    set id | id in pending && Fails(pending[id])
  }

  function Awaiting(id: Id, p: Pending, serial: nat): Pending {
    if Keeps(p) then
      p.(phase := WaitingReconnect, timerId := Some(Timer(ReconnectTimer, id, serial, p.reconnectTimeout)))
    else p
  }

  function Survivors(pending: map<Id, Pending>, serial: nat): map<Id, Pending> {
    map id | id in pending && !Fails(pending[id]) :: Awaiting(id, pending[id], serial)
  }

  /** Timers of requests that waited for a response are cancelled; kept requests get a reconnect timer. */
  function SurvivorTimers(timers: set<Timer>, pending: map<Id, Pending>, serial: nat): set<Timer> {
    timers
    - (set id | id in pending && pending[id].phase == WaitingResponse && pending[id].timerId.Some? ::
         pending[id].timerId.value)
    + (set id | id in pending && Keeps(pending[id]) ::
         Timer(ReconnectTimer, id, serial, pending[id].reconnectTimeout))
  }

  function MoveKept(ledger: map<Id, Ledger>, pending: map<Id, Pending>): map<Id, Ledger> {
    map id | id in ledger ::
      if id in pending && Keeps(pending[id]) then ledger[id].(moves := ledger[id].moves + 1) else ledger[id]
  }

  /** `failAllDisreconnectRequests`: requests with budget wait for a new connection, the others fail in id order. */
  function FailDisreconnect(s: State, code: u16, notice: Notice): State {
    s.(pending := Survivors(s.pending, s.serial),
       timers := SurvivorTimers(s.timers, s.pending, s.serial),
       serial := s.serial + 1,
       stack := Push(Callbacks(Failures(s.pending, Failing(s.pending), code, notice), true), s.stack),
       h := s.h.(ledger := MoveKept(s.h.ledger, s.pending)))
  }

  // --------------------------------------------------------- connection events

  function DisconnectStep(s: State): State {
    var s1 := s.(manual := true);
    match s.status
    case Connected => s1.(status := Disconnecting)
    case Connecting => FailAllPending(s1.(status := Disconnected), CONNECTION_CLOSED, Closed)
    case Disconnecting =>
      FailAllPending(s1.(h := s.h.(forgot := s.h.forgot + s.pending.Keys)), CONNECTION_CLOSED, Closed)
    case Disconnected => FailAllPending(s1, CONNECTION_CLOSED, Closed)
  }

  function UpStep(s: State): State {
    var c := s.h.nextConn;
    s.(conn := Some(c), up := true, status := Connected, manual := false,
       stack := Push(UserCode, Push(AfterUp(c), s.stack)),
       h := s.h.(nextConn := c + 1, out := s.h.out[c := []], answered := {}, forgot := {}))
  }

  function DownStep(s: State): State {
    var s1 := s.(status := Disconnected, conn := None, up := false, stack := Push(AfterDown, s.stack),
                 h := s.h.(answered := {}, forgot := {}));
    if s.manual then FailAllPending(s1, CONNECTION_CLOSED, Closed)
    else FailDisreconnect(s1, CONNECTION_CLOSED, Closed)
  }

  function ConnErrorStep(s: State): State {
    FailDisreconnect(s.(status := Disconnected, conn := None, up := false, stack := Push(AfterError, s.stack)),
                     CONNECTION_UNAVAILABLE, Unavailable)
  }

  function CollectResends(pending: map<Id, Pending>): set<Id> {
    set id | id in pending && pending[id].phase == WaitingReconnect && pending[id].allowReconnect
             && pending[id].remainingResends != 0
  }

  function CountResend(ledger: map<Id, Ledger>, id: Id, c: Conn): map<Id, Ledger> {
    if id !in ledger then ledger
    else
      var l := ledger[id];
      ledger[id := l.(resends := l.resends + 1, moves := l.moves + 1, sentOn := l.sentOn + {c})]
  }

  /** The request waits for its answer on connection `c`, with a new timer if it has a timeout. */
  function Rearmed(s: State, id: Id, p: Pending, c: Conn): State {
    var timer := Timer(RequestTimer, id, s.serial, p.requestTimeout);
    s.(pending := s.pending[id := p.(timerId := if p.requestTimeout > 0 then Some(timer) else None)],
       timers := if p.requestTimeout > 0 then s.timers + {timer} else s.timers,
       serial := s.serial + 1,
       h := SendOn(s.h, c, MRequest(MakeRequest(id, p.body)))
            .(ledger := CountResend(s.h.ledger, id, c)))
  }

  function ResendStep(s: State, id: Id, c: Conn): State
    requires id in s.pending
  {
    var p := s.pending[id].(remainingResends := Decrement(s.pending[id].remainingResends), phase := WaitingResponse);
    var timers := WithoutTimer(s.timers, s.pending[id].timerId);
    if !Encodes(p.body) then
      Calling(s.(pending := s.pending - {id}, timers := timers), id, p.callback,
              Failed(INTERNAL_ERROR, EncodeCapacity))
    else Rearmed(s.(timers := timers), id, p, c)
  }

  // ------------------------------------------------------------ messages, timers

  function ParseResponse(cfg: Config, msg: Bytes): Outcome<Response> {
    if msg == [] || |msg| > cfg.MaxSize() || DecodeHead(msg) != Ok(KIND_RESPONSE) then Err("")
    else DecodeResponse(msg)
  }

  lemma ParsedIsWellShaped(cfg: Config, msg: Bytes)
    requires ParseResponse(cfg, msg).Ok?
    ensures WellShaped(ParseResponse(cfg, msg).value)
  {
    ResponseBijection(msg, ParseResponse(cfg, msg).value);
  }

  /** The client accepts exactly the byte strings within its limit that encode a response. */
  lemma ParsesExactly(cfg: Config, msg: Bytes, r: Response)
    ensures ParseResponse(cfg, msg) == Ok(r) <==>
              |msg| <= cfg.MaxSize() && ResponseEncodable(r) && msg == ResponseWire(r)
  {
    ResponseBijection(msg, r);
    ResponseEncodeAccepts(r);
    HeadNamesDecoder(msg);
  }

  /** `onRpcMessage` from the decoded response on; anything else closes the connection. */
  function MessageStep(s: State, answer: Outcome<Response>): State {
    match answer
    case Err(_) => s.(h := s.h.(malformedCloses := s.h.malformedCloses + 1))
    case Ok(r) =>
      if r.id in s.pending then
        Calling(s.(pending := s.pending - {r.id},
                   timers := WithoutTimer(s.timers, s.pending[r.id].timerId),
                   h := s.h.(answered := s.h.answered + {r.id})),
                r.id, s.pending[r.id].callback, Received(r))
      else if r.id in s.ignored then
        s.(ignored := s.ignored - {r.id}, h := s.h.(answered := s.h.answered + {r.id}))
      else
        s.(h := s.h.(unknownCloses := s.h.unknownCloses + 1))
  }

  function RequestTimeoutStep(s: State, id: Id, now: nat): State {
    if id !in s.pending || s.pending[id].phase != WaitingResponse then s
    else AbandonStep(s, id, now, REQUEST_TIMEOUT, TimedOut)
  }

  function CountWait(ledger: map<Id, Ledger>, id: Id): map<Id, Ledger> {
    if id in ledger then ledger[id := ledger[id].(waits := ledger[id].waits + 1)] else ledger
  }

  /** A reconnect wait ran out and budget is left: set the timer again. */
  function WaitOnStep(s: State, id: Id): State
    requires id in s.pending
  {
    var timer := Timer(ReconnectTimer, id, s.serial, s.pending[id].reconnectTimeout);
    var p := s.pending[id].(remainingResends := Decrement(s.pending[id].remainingResends), timerId := Some(timer));
    s.(pending := s.pending[id := p], timers := s.timers + {timer}, serial := s.serial + 1,
       h := s.h.(ledger := CountWait(s.h.ledger, id)))
  }

  /** The last reconnect wait ran out. */
  function WaitOverStep(s: State, id: Id): State
    requires id in s.pending
  {
    Calling(s.(pending := s.pending - {id}, h := s.h.(ledger := CountWait(s.h.ledger, id))), id, s.pending[id].callback,
            Failed(RECONNECT_TIMEOUT, ReconnectTimedOut))
  }

  function ReconnectTimeoutStep(s: State, id: Id): State {
    if id !in s.pending || s.pending[id].phase != WaitingReconnect then s
    else if Decrement(s.pending[id].remainingResends) == 0 then WaitOverStep(s, id)
    else WaitOnStep(s, id)
  }

  /** Stale timers may fire too: the handlers look the request up again. */
  function TimerStep(s: State, timer: Timer, now: nat): State {
    var s1 := s.(timers := s.timers - {timer});
    match timer.kind
    case RequestTimer => RequestTimeoutStep(s1, timer.id, now)
    case ReconnectTimer => ReconnectTimeoutStep(s1, timer.id)
  }

  function Unexpired(ignored: map<Id, nat>, now: nat): map<Id, nat> {
    map id | id in ignored && ignored[id] > now :: ignored[id]
  }

  function SweepStep(s: State, now: nat): State {
    var kept := Unexpired(s.ignored, now);
    s.(ignored := kept, h := s.h.(forgot := s.h.forgot + (s.ignored.Keys - kept.Keys)))
  }

  // ----------------------------------------------------------- the machine

  predicate FireEnabled(s: State, id: Id) {
    && s.stack.Push? && s.stack.top.Callbacks? && id in s.stack.top.todo
    && (s.stack.top.ordered ==> forall j | j in s.stack.top.todo :: id <= j)
  }

  predicate ResendEnabled(s: State, id: Id) {
    s.stack.Push? && s.stack.top.Resend? && id in s.stack.top.ids && Usable(s, s.stack.top.conn)
  }

  predicate ResumeEnabled(s: State) {
    s.stack.Push? &&
    match s.stack.top
    case Callbacks(todo, _) => todo == map[]
    case Resend(c, ids) => ids == {} || !Usable(s, c)
    case _ => true
  }

  predicate UserEnabled(s: State, u: UserEvent) {
    match u
    case Issue(_) => 1 <= s.nextId <= 0xFFFF_FFFF_FFFF_FFFF
    case StartCall(id) => CanRunUser(s) && id in s.queued
    case _ => CanRunUser(s)
  }

  predicate LoopEnabled(s: State, l: LoopEvent) {
    match l
    case Up => s.stack.Bottom? && s.conn.None?
    case Down => CanRunUser(s) && s.conn.Some?
    case ConnError => CanRunUser(s) && s.conn.None?
    case LinkDrop => true
    case Message(answer) => s.stack.Bottom? && s.conn.Some? && (answer.Ok? ==> WellShaped(answer.value))
    case _ => s.stack.Bottom?
  }

  predicate FrameEnabled(s: State, f: FrameEvent) {
    match f
    case Fire(id) => FireEnabled(s, id)
    case ResendNext(id) => ResendEnabled(s, id)
    case Resume => ResumeEnabled(s)
  }

  predicate Enabled(s: State, e: Event) {
    match e
    case User(u) => UserEnabled(s, u)
    case Loop(l) => LoopEnabled(s, l)
    case Inside(f) => FrameEnabled(s, f)
  }

  function FireStep(s: State, id: Id): State
    requires FireEnabled(s, id)
  {
    var frame := s.stack.top;
    s.(stack := Push(UserCode, Push(Callbacks(frame.todo - {id}, frame.ordered), s.stack.below)),
       h := s.h.(fired := s.h.fired + [frame.todo[id]]))
  }

  function ResendNextStep(s: State, id: Id): State
    requires ResendEnabled(s, id)
  {
    var c := s.stack.top.conn;
    var s1 := s.(stack := Push(Resend(c, s.stack.top.ids - {id}), s.stack.below));
    if id !in s.pending || s.pending[id].phase != WaitingReconnect then s1 else ResendStep(s1, id, c)
  }

  function ResumeStep(s: State): State
    requires ResumeEnabled(s)
  {
    match s.stack.top
    case AfterUp(c) =>
      s.(stack := if s.conn == Some(c) then Push(Resend(c, CollectResends(s.pending)), s.stack.below)
                  else s.stack.below)
    case AfterDown => s.(ignored := map[], stack := Push(UserCode, s.stack.below))
    case AfterError => s.(ignored := map[], stack := Push(UserCode, s.stack.below))
    case _ => s.(stack := s.stack.below)
  }

  function UserNext(s: State, u: UserEvent): State
    requires UserEnabled(s, u)
  {
    match u
    case Issue(args) => IssueStep(s, args)
    case StartCall(id) => StartCallStep(s, id)
    case Cancel(id, now) => CancelStep(s, id, now)
    case Connect => if s.status != Disconnected then s else s.(status := Connecting)
    case Disconnect => DisconnectStep(s)
  }

  function LoopNext(s: State, l: LoopEvent): State
    requires LoopEnabled(s, l)
  {
    match l
    case Up => UpStep(s)
    case Down => DownStep(s)
    case ConnError => ConnErrorStep(s)
    case LinkDrop => s.(up := false)
    case Message(answer) => MessageStep(s, answer)
    case TimerFires(timer, now) => TimerStep(s, timer, now)
    case Sweep(now) => SweepStep(s, now)
  }

  function FrameNext(s: State, f: FrameEvent): State
    requires FrameEnabled(s, f)
  {
    match f
    case Fire(id) => FireStep(s, id)
    case ResendNext(id) => ResendNextStep(s, id)
    case Resume => ResumeStep(s)
  }

  function Next(s: State, e: Event): State
    requires Enabled(s, e)
  {
    match e
    case User(u) => UserNext(s, u)
    case Loop(l) => LoopNext(s, l)
    case Inside(f) => FrameNext(s, f)
  }

  ghost predicate Step(s: State, s': State) {
    exists e :: Enabled(s, e) && s' == Next(s, e)
  }

  ghost predicate StepAt(run: seq<State>, i: nat)
    requires i + 1 < |run|
  {
    Step(run[i], run[i + 1])
  }

  ghost predicate IsRun(run: seq<State>) {
    && run != [] && Init(run[0])
    && forall i: nat | i + 1 < |run| :: StepAt(run, i)
  }
}
