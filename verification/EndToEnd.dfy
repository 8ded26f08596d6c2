/** One client, one server and in-order connections between them: every interleaving, with handlers that
    answer never, once or many times, from any thread. */
module EndToEnd {
  import opened ByteOrder
  import opened Options
  import opened RpcMessage
  import opened ServerReply
  import C = ClientModel
  import CI = ClientInvariant
  import CS = ClientSteps
  import R = CancellationRegistry

  type Conn = nat
  type Id = u64
  type Exec = nat

  /** Registered methods by name, and the two limits. */
  datatype ServerConfig = ServerConfig(
    limits: R.Limits, maxSize: nat, sync: set<(Bytes, Bytes)>, async: set<(Bytes, Bytes)>)

  /** One invocation of an asynchronous handler; `replied` is its first-reply-wins flag. */
  datatype ExecInfo = ExecInfo(key: R.Key, replied: bool)

  datatype Fate = TakenByReply | CanceledByClient | ClearedByClose

  datatype AnswerKind = Handler(outcome: HandlerOutcome) | LimitReached | MethodNotFound

  /** A response frame on its way to the client, and the asynchronous execution that caused it. */
  datatype Answer = Answer(id: Id, kind: AnswerKind, cause: Option<Exec>)

  datatype Server = Server(
    cfg: ServerConfig,
    active: map<R.Key, Exec>,       // the registry; a token is named by its execution
    canceled: set<Exec>,
    execs: map<Exec, ExecInfo>,
    nextExec: Exec,
    posted: map<Exec, HandlerOutcome>,  // replies queued to the connection's loop
    read: map<Conn, nat>,           // how many messages of each connection have been handled
    closed: set<Conn>,
    sent: map<Conn, seq<Answer>>,
    fates: map<Exec, Fate>,
    duplicates: nat,
    first: map<Exec, HandlerOutcome>)   // what each handler replied first

  datatype Sys = Sys(client: C.State, srv: Server, got: nat)

  datatype Incoming = Unusable | CancelFor(id: Id) | RequestFor(request: Request)

  datatype ServerEvent =
    | Recv(conn: Conn, outcome: HandlerOutcome, ok: bool)  // `ok`: the answer, if any, reaches the connection
    | Reply(exec: Exec, outcome: HandlerOutcome, alive: bool)
    | RunPosted(exec: Exec, ok: bool)
    | DropPosted(exec: Exec)                               // the server object is gone
    | ServerDown(conn: Conn)

  datatype Event =
    | ClientDoes(e: C.Event)
    | Establish
    | Deliver(answer: Outcome<Response>)
    | ServerDoes(v: ServerEvent)

  // ---------------------------------------------------- bytes on the wire

  function Wire(m: C.Msg): Bytes {
    match m
    case MRequest(r) => RequestWire(r)
    case MCancel(id) => CancelWire(id)
  }

  /** What `RpcServer::onRpcMessage` makes of the bytes. */
  function ServerParse(maxSize: nat, msg: Bytes): Incoming {
    if msg == [] || |msg| > maxSize then Unusable
    else match DecodeHead(msg)
      case Err(_) => Unusable
      case Ok(kind) =>
        if kind == KIND_CANCEL then
          match DecodeCancel(msg) case Err(_) => Unusable case Ok(id) => CancelFor(id)
        else if kind == KIND_REQUEST then
          match DecodeRequest(msg) case Err(_) => Unusable case Ok(r) => RequestFor(r)
        else Unusable
  }

  function WireLen(m: C.Msg): nat {
    match m
    case MRequest(r) => RequestLen(|r.service|, |r.methodName|, |r.payload|)
    case MCancel(_) => 11
  }

  /** The message that was sent, unless it is too large for this server. */
  function AsSent(maxSize: nat, m: C.Msg): Incoming {
    if WireLen(m) > maxSize then Unusable
    else match m
      case MRequest(r) => RequestFor(r)
      case MCancel(id) => CancelFor(id)
  }

  /** The server decodes from the bytes exactly what the client encoded. */
  lemma ServerReadsWhatWasSent(maxSize: nat, m: C.Msg)
    requires m.MRequest? ==> RequestEncodable(m.request)
    ensures ServerParse(maxSize, Wire(m)) == AsSent(maxSize, m)
  {
    HeadNamesDecoder(Wire(m));
    match m
    case MRequest(r) =>
      RequestBijection(Wire(m), r);
      WireLengths(r, Response(0, 0, 0, [], []), 0);
    case MCancel(id) =>
      CancelBijection(Wire(m), id);
      WireLengths(Request(0, [], [], []), Response(0, 0, 0, [], []), id);
  }

  function ResultOf(kind: AnswerKind): RpcResult {
    match kind
    case Handler(outcome) => Sanitised(outcome)
    case LimitReached => Failure(RESOURCE_EXHAUSTED, "server request limit reached")
    case MethodNotFound => Failure(METHOD_NOT_FOUND, "service or method not exist")
  }

  /** The client reads from the bytes a response for the same id, or rejects a frame above its own limit. */
  lemma ClientReadsWhatWasSent(cfg: C.Config, a: Answer, maxSize: nat)
    requires maxSize <= MAX_MESSAGE_SIZE && Send(a.id, ResultOf(a.kind), maxSize).Frame?
    ensures var answer := C.ParseResponse(cfg, Send(a.id, ResultOf(a.kind), maxSize).bytes);
            && Reads(a, maxSize, answer)
            && (answer.Err? <==> |Send(a.id, ResultOf(a.kind), maxSize).bytes| > cfg.MaxSize())
  {
    var r := ResultOf(a.kind);
    if a.kind.Handler? {
      SanitisedIsWellShaped(a.id, a.kind.outcome);
    }
    SentIsIntended(a.id, r, maxSize);
    HeadNamesDecoder(Send(a.id, r, maxSize).bytes);
  }

  /** The receiver either gives up on the frame or reads the response the server meant; see `ClientReadsWhatWasSent`. */
  predicate Reads(a: Answer, maxSize: nat, answer: Outcome<Response>) {
    answer.Ok? ==>
      && answer.value.id == a.id && WellShaped(answer.value)
      && answer.value == Intended(a.id, ResultOf(a.kind), maxSize)
  }

  // ------------------------------------------------------------- the server

  function Answered(srv: Server, c: Conn, a: Answer, ok: bool): Server {
    if ok && c in srv.sent then srv.(sent := srv.sent[c := srv.sent[c] + [a]]) else srv
  }

  /** A new execution holds the token of the pair. */
  function Enrolled(srv: Server, key: R.Key): Server {
    srv.(active := srv.active[key := srv.nextExec], nextExec := srv.nextExec + 1,
         execs := srv.execs[srv.nextExec := ExecInfo(key, false)])
  }

  function AsyncStep(srv: Server, c: Conn, id: Id, ok: bool): Server {
    var key := R.Key(c, id);
    match R.StatusOf(srv.active.Keys, srv.cfg.limits, key)
    case DuplicateRequestId => srv.(duplicates := srv.duplicates + 1)
    case Registered => Enrolled(srv, key)
    case _ => Answered(srv, c, Answer(id, LimitReached, None), ok)
  }

  function RequestStep(srv: Server, c: Conn, r: Request, outcome: HandlerOutcome, ok: bool): Server {
    var name := (r.service, r.methodName);
    if name in srv.cfg.sync then Answered(srv, c, Answer(r.id, Handler(outcome), None), ok)
    else if name in srv.cfg.async then AsyncStep(srv, c, r.id, ok)
    else Answered(srv, c, Answer(r.id, MethodNotFound, None), ok)
  }

  function CancelStep(srv: Server, key: R.Key): Server {
    if key !in srv.active then srv
    else srv.(active := R.RemoveFrom(srv.active, key),
              canceled := srv.canceled + {srv.active[key]},
              fates := srv.fates[srv.active[key] := CanceledByClient])
  }

  /** `RpcServer::onRpcMessage` from the decoded message on. */
  function HandleStep(srv: Server, c: Conn, incoming: Incoming, outcome: HandlerOutcome, ok: bool): Server {
    match incoming
    case Unusable => srv
    case CancelFor(id) => CancelStep(srv, R.Key(c, id))
    case RequestFor(r) => RequestStep(srv, c, r, outcome, ok)
  }

  /** A new connection, nothing of it read and nothing sent. */
  function Accepted(srv: Server, c: Conn): Server {
    srv.(read := srv.read[c := 0], sent := srv.sent[c := []])
  }

  function ReadOne(srv: Server, c: Conn): Server
    requires c in srv.read
  {
    srv.(read := srv.read[c := srv.read[c] + 1])
  }

  function RecvStep(srv: Server, c: Conn, m: C.Msg, outcome: HandlerOutcome, ok: bool): Server
    requires c in srv.read
  {
    HandleStep(ReadOne(srv, c), c, AsSent(srv.cfg.maxSize, m), outcome, ok)
  }

  /** The reply closure: only the first call goes on, and only while the connection object lives. */
  function ReplyStep(srv: Server, e: Exec, outcome: HandlerOutcome, alive: bool): Server
    requires e in srv.execs
  {
    var srv1 := srv.(first := if e in srv.first then srv.first else srv.first[e := outcome]);
    if srv.execs[e].replied then srv1
    else
      var srv2 := srv1.(execs := srv.execs[e := srv.execs[e].(replied := true)]);
      if alive then srv2.(posted := srv.posted[e := outcome]) else srv2
  }

  /** `take` by connection and id. */
  function Taken(srv: Server, key: R.Key): Server {
    if key !in srv.active then srv
    else srv.(active := R.RemoveFrom(srv.active, key), fates := srv.fates[srv.active[key] := TakenByReply])
  }

  /** The posted reply: take the token, then send unless there was none or it was cancelled. */
  function RunPostedStep(srv: Server, e: Exec, ok: bool): Server
    requires e in srv.posted && e in srv.execs
  {
    var key := srv.execs[e].key;
    var srv1 := Taken(srv.(posted := srv.posted - {e}), key);
    if key !in srv.active || srv.active[key] in srv.canceled then srv1
    else Answered(srv1, key.conn, Answer(key.id, Handler(srv.posted[e]), Some(e)), ok)
  }

  /** The posted reply finds the registry or the size setting destroyed, and does nothing. */
  function DropPostedStep(srv: Server, e: Exec): Server {
    srv.(posted := srv.posted - {e})
  }

  function Cleared(srv: Server, c: Conn): set<Exec> {
    set k | k in srv.active && k.conn == c :: srv.active[k]
  }

  function ServerDownStep(srv: Server, c: Conn): Server {
    srv.(closed := srv.closed + {c},
         active := R.ClearIn(srv.active, c),
         canceled := srv.canceled + Cleared(srv, c),
         fates := srv.fates + map e | e in Cleared(srv, c) :: ClearedByClose)
  }

  // ------------------------------------------------------------- the system

  predicate Init(s: Sys) {
    && C.Init(s.client) && s.srv.cfg.limits.Valid() && s.srv.cfg.maxSize <= MAX_MESSAGE_SIZE && s.got == 0
    && s.srv == Server(s.srv.cfg, map[], {}, map[], 0, map[], map[], {}, map[], map[], 0, map[])
  }

  predicate ServerEnabled(s: Sys, v: ServerEvent) {
    match v
    case Recv(c, _, _) => c in s.srv.read && c !in s.srv.closed && s.srv.read[c] < |C.Sent(s.client.h, c)|
    case Reply(e, _, _) => e in s.srv.execs
    case RunPosted(e, _) => e in s.srv.posted && e in s.srv.execs
    case DropPosted(e) => e in s.srv.posted
    case ServerDown(c) => c in s.srv.read && c !in s.srv.closed
  }

  /** The server sends this answer as a frame and does not close the connection instead. */
  predicate Framed(a: Answer, maxSize: nat) {
    Send(a.id, ResultOf(a.kind), maxSize).Frame?
  }

  ghost predicate OnlyFrames(srv: Server) {
    forall c, k | c in srv.sent && 0 <= k < |srv.sent[c]| :: Framed(srv.sent[c][k], srv.cfg.maxSize)
  }

  ghost predicate Enabled(s: Sys, e: Event) {
    match e
    case ClientDoes(ce) => C.Enabled(s.client, ce) && !(ce.Loop? && (ce.l.Up? || ce.l.Message?))
    case Establish => C.LoopEnabled(s.client, C.Up)
    case Deliver(answer) =>
      && C.LoopEnabled(s.client, C.Message(answer))
      && s.client.conn.value in s.srv.sent && s.got < |s.srv.sent[s.client.conn.value]|
      && Reads(s.srv.sent[s.client.conn.value][s.got], s.srv.cfg.maxSize, answer)
    case ServerDoes(v) => ServerEnabled(s, v) && OnlyFrames(ServerNext(s, v))
  }

  function ServerNext(s: Sys, v: ServerEvent): Server
    requires ServerEnabled(s, v)
  {
    match v
    case Recv(c, outcome, ok) => RecvStep(s.srv, c, C.Sent(s.client.h, c)[s.srv.read[c]], outcome, ok)
    case Reply(e, outcome, alive) => ReplyStep(s.srv, e, outcome, alive)
    case RunPosted(e, ok) => RunPostedStep(s.srv, e, ok)
    case DropPosted(e) => DropPostedStep(s.srv, e)
    case ServerDown(c) => ServerDownStep(s.srv, c)
  }

  function Next(s: Sys, e: Event): Sys
    requires Enabled(s, e)
  {
    match e
    case ClientDoes(ce) => s.(client := C.Next(s.client, ce))
    case Establish =>
      var c := s.client.h.nextConn;
      Sys(C.UpStep(s.client), Accepted(s.srv, c), 0)
    case Deliver(answer) => s.(client := C.MessageStep(s.client, answer), got := s.got + 1)
    case ServerDoes(v) => s.(srv := ServerNext(s, v))
  }

  ghost predicate Step(s: Sys, s': Sys) {
    exists e :: Enabled(s, e) && s' == Next(s, e)
  }

  ghost predicate StepAt(run: seq<Sys>, i: nat)
    requires i + 1 < |run|
  {
    Step(run[i], run[i + 1])
  }

  ghost predicate IsRun(run: seq<Sys>) {
    && run != [] && Init(run[0])
    && forall i: nat | i + 1 < |run| :: StepAt(run, i)
  }

  // ------------------------------------------------------------- invariant

  /** The server has handled a request with this id on this connection. */
  ghost predicate Seen(h: C.History, srv: Server, c: Conn, id: Id) {
    c in srv.read && srv.read[c] <= |C.Sent(h, c)| && CI.Requests(C.Sent(h, c)[..srv.read[c]], id) > 0
  }

  ghost predicate AnsweredIn(srv: Server, c: Conn, id: Id) {
    c in srv.sent && exists j :: 0 <= j < |srv.sent[c]| && srv.sent[c][j].id == id
  }

  ghost predicate ConnOk(h: C.History, srv: Server, c: Conn) {
    && (c in srv.read <==> c in h.out) && (c in srv.sent <==> c in h.out)
    && (c in srv.read ==> srv.read[c] <= |h.out[c]|)
  }

  /** Every answer follows a request of its connection, and no request is answered twice. */
  ghost predicate AnswerOk(h: C.History, srv: Server, c: Conn, j: nat)
    requires c in srv.sent && j < |srv.sent[c]|
  {
    var a := srv.sent[c][j];
    && Seen(h, srv, c, a.id)
    && (forall k | 0 <= k < j :: srv.sent[c][k].id != a.id)
    && (a.cause.Some? ==>
          && a.cause.value in srv.execs && srv.execs[a.cause.value].key == R.Key(c, a.id)
          && a.cause.value in srv.fates && srv.fates[a.cause.value] == TakenByReply)
  }

  ghost predicate AnswersOk(h: C.History, srv: Server, c: Conn) {
    c in srv.sent ==> forall j: nat | j < |srv.sent[c]| :: AnswerOk(h, srv, c, j)
  }

  /** An active token is uncancelled, undecided, owned by one execution, and not answered yet. */
  ghost predicate ActiveOk(srv: Server, k: R.Key) {
    k in srv.active ==>
      var e := srv.active[k];
      && e in srv.execs && srv.execs[e].key == k && e !in srv.canceled && e !in srv.fates
      && k.conn !in srv.closed && !AnsweredIn(srv, k.conn, k.id)
  }

  /** An execution belongs to one handled request; its token is active, or it met exactly one fate. */
  ghost predicate ExecOk(h: C.History, srv: Server, e: Exec) {
    && (e in srv.execs ==>
          var k := srv.execs[e].key;
          && e < srv.nextExec && Seen(h, srv, k.conn, k.id)
          && (e in srv.fates || (k in srv.active && srv.active[k] == e)))
    && (e in srv.fates || e in srv.posted || e in srv.canceled ==> e in srv.execs)
    && (e in srv.posted ==> srv.execs[e].replied)
  }

  ghost predicate OneExec(srv: Server, e: Exec, e': Exec) {
    e in srv.execs && e' in srv.execs && srv.execs[e].key == srv.execs[e'].key ==> e == e'
  }

  ghost predicate ServerInv(h: C.History, srv: Server) {
    && (forall c :: ConnOk(h, srv, c))
    && (forall c :: AnswersOk(h, srv, c))
    && (forall k :: ActiveOk(srv, k))
    && (forall e :: ExecOk(h, srv, e))
    && (forall e, e' :: OneExec(srv, e, e'))
    && srv.duplicates == 0
  }

  /** What the client has recorded as answered on the current connection has been delivered to it. */
  ghost predicate LinkInv(s: Sys) {
    s.client.conn.Some? ==>
      var c := s.client.conn.value;
      && c in s.srv.sent && s.got <= |s.srv.sent[c]|
      && forall id | id in s.client.h.answered :: exists j :: 0 <= j < s.got && s.srv.sent[c][j].id == id
  }

  ghost predicate Inv(s: Sys) {
    CI.Inv(s.client) && ServerInv(s.client.h, s.srv) && LinkInv(s)
  }

  lemma InitInv(s: Sys)
    requires Init(s)
    ensures Inv(s)
  {
    CI.InitInv(s.client);
    assert forall c :: ConnOk(s.client.h, s.srv, c);
    assert forall c :: AnswersOk(s.client.h, s.srv, c);
    assert forall k :: ActiveOk(s.srv, k);
    assert forall e :: ExecOk(s.client.h, s.srv, e);
    assert forall e, e' :: OneExec(s.srv, e, e');
  }

  // --------------------------------------------- the client only adds messages

  ghost predicate Longer(h: C.History, h': C.History, c: Conn) {
    C.Sent(h, c) <= C.Sent(h', c)
  }

  /** Same connections, longer logs; the link is the same with the same answers recorded, or gone. */
  ghost predicate Quiet(s: C.State, s': C.State) {
    && s'.h.out.Keys == s.h.out.Keys && (forall c :: Longer(s.h, s'.h, c))
    && (s'.conn.None? || (s'.conn == s.conn && s'.h.answered == s.h.answered))
  }

  ghost predicate OnKnownConn(s: C.State) {
    s.conn.Some? ==> s.conn.value in s.h.out
  }

  lemma QuietStartCall(s: C.State, id: Id)
    requires OnKnownConn(s) && id in s.queued
    ensures Quiet(s, C.StartCallStep(s, id))
  {}

  lemma QuietAbandon(s: C.State, id: Id, now: nat, code: u16, notice: C.Notice)
    requires OnKnownConn(s) && id in s.pending
    ensures Quiet(s, C.AbandonStep(s, id, now, code, notice))
  {}

  lemma QuietCancel(s: C.State, id: Id, now: nat)
    requires OnKnownConn(s)
    ensures Quiet(s, C.CancelStep(s, id, now))
  {}

  lemma QuietDisconnect(s: C.State)
    ensures Quiet(s, C.DisconnectStep(s))
  {}

  lemma QuietTimer(s: C.State, timer: C.Timer, now: nat)
    requires OnKnownConn(s)
    ensures Quiet(s, C.TimerStep(s, timer, now))
  {
    var s1 := s.(timers := s.timers - {timer});
    match timer.kind
    case RequestTimer =>
      if timer.id in s.pending && s.pending[timer.id].phase == C.WaitingResponse {
        QuietAbandon(s1, timer.id, now, REQUEST_TIMEOUT, C.TimedOut);
      }
    case ReconnectTimer =>
  }

  lemma QuietResend(s: C.State, id: Id, c: Conn)
    requires OnKnownConn(s) && s.conn == Some(c) && id in s.pending
    ensures Quiet(s, C.ResendStep(s, id, c))
  {}

  lemma QuietResendNext(s: C.State, id: Id)
    requires OnKnownConn(s) && C.ResendEnabled(s, id)
    ensures Quiet(s, C.ResendNextStep(s, id))
  {
    if id in s.pending && s.pending[id].phase == C.WaitingReconnect {
      var c := s.stack.top.conn;
      QuietResend(s.(stack := C.Push(C.Resend(c, s.stack.top.ids - {id}), s.stack.below)), id, c);
    }
  }

  lemma QuietLost(s: C.State)
    ensures Quiet(s, C.DownStep(s)) && Quiet(s, C.ConnErrorStep(s))
  {}

  lemma QuietUser(s: C.State, u: C.UserEvent)
    requires OnKnownConn(s) && C.UserEnabled(s, u)
    ensures Quiet(s, C.UserNext(s, u))
  {
    match u
    case StartCall(id) => QuietStartCall(s, id);
    case Cancel(id, now) => QuietCancel(s, id, now);
    case Disconnect => QuietDisconnect(s);
    case _ =>
  }

  lemma QuietEvent(s: C.State, e: C.Event)
    requires OnKnownConn(s) && C.Enabled(s, e) && !(e.Loop? && (e.l.Up? || e.l.Message?))
    ensures Quiet(s, C.Next(s, e))
  {
    match e
    case User(u) => QuietUser(s, u);
    case Loop(TimerFires(timer, now)) => QuietTimer(s, timer, now);
    case Loop(Down) => QuietLost(s);
    case Loop(ConnError) => QuietLost(s);
    case Inside(ResendNext(id)) => QuietResendNext(s, id);
    case _ =>
  }

  lemma SeenGrows(h: C.History, h': C.History, srv: Server, c: Conn, id: Id)
    requires Seen(h, srv, c, id) && Longer(h, h', c)
    ensures Seen(h', srv, c, id)
  {
    assert C.Sent(h', c)[..srv.read[c]] == C.Sent(h, c)[..srv.read[c]];
  }

  /** New messages do not disturb what the server did with the old ones. */
  lemma ServerInvGrows(h: C.History, h': C.History, srv: Server)
    requires ServerInv(h, srv) && h'.out.Keys == h.out.Keys && forall c :: Longer(h, h', c)
    ensures ServerInv(h', srv)
  {
    forall c
      ensures ConnOk(h', srv, c)
    {
      assert ConnOk(h, srv, c) && Longer(h, h', c);
    }
    forall c, j: nat | c in srv.sent && j < |srv.sent[c]|
      ensures AnswerOk(h', srv, c, j)
    {
      assert AnswersOk(h, srv, c) && AnswerOk(h, srv, c, j) && Longer(h, h', c);
      SeenGrows(h, h', srv, c, srv.sent[c][j].id);
    }
    assert forall c :: AnswersOk(h', srv, c);
    forall e
      ensures ExecOk(h', srv, e)
    {
      assert ExecOk(h, srv, e);
      if e in srv.execs {
        var k := srv.execs[e].key;
        assert Longer(h, h', k.conn);
        SeenGrows(h, h', srv, k.conn, k.id);
      }
    }
  }

  // ----------------------------------------------------- a message is handled

  lemma {:induction false} RequestsPrefix(msgs: seq<C.Msg>, n: nat, id: Id)
    requires n <= |msgs|
    ensures CI.Requests(msgs[..n], id) <= CI.Requests(msgs, id)
  {
    if n < |msgs| {
      var front := msgs[..|msgs| - 1];
      RequestsPrefix(front, n, id);
      assert front[..n] == msgs[..n];
    } else {
      assert msgs[..n] == msgs;
    }
  }

  /** Ids are used once per connection: the next request has not been handled before. */
  lemma NextIsUnseen(h: C.History, srv: Server, c: Conn)
    requires CI.OutInv(h) && c in srv.read && srv.read[c] < |C.Sent(h, c)| && C.Sent(h, c)[srv.read[c]].MRequest?
    ensures !Seen(h, srv, c, C.Sent(h, c)[srv.read[c]].request.id)
  {
    var n, msgs := srv.read[c], C.Sent(h, c);
    var id := msgs[n].request.id;
    assert CI.OutOk(h, c, id);
    CI.RequestsAppend(msgs[..n], msgs[n], id);
    assert msgs[..n] + [msgs[n]] == msgs[..n + 1];
    RequestsPrefix(msgs, n + 1, id);
  }

  ghost predicate Untried(srv: Server, c: Conn, id: Id) {
    && !AnsweredIn(srv, c, id) && R.Key(c, id) !in srv.active
    && forall e | e in srv.execs :: srv.execs[e].key != R.Key(c, id)
  }

  lemma UnseenIsUntried(h: C.History, srv: Server, c: Conn, id: Id)
    requires ServerInv(h, srv) && !Seen(h, srv, c, id)
    ensures Untried(srv, c, id)
  {
    assert AnswersOk(h, srv, c);
    forall j: nat | c in srv.sent && j < |srv.sent[c]|
      ensures srv.sent[c][j].id != id
    {
      assert AnswerOk(h, srv, c, j);
    }
    forall e | e in srv.execs
      ensures srv.execs[e].key != R.Key(c, id)
    {
      assert ExecOk(h, srv, e);
    }
    assert ActiveOk(srv, R.Key(c, id));
  }

  lemma SeenReadOne(h: C.History, srv: Server, c: Conn, d: Conn, id: Id)
    requires c in srv.read && srv.read[c] < |C.Sent(h, c)| && Seen(h, srv, d, id)
    ensures Seen(h, ReadOne(srv, c), d, id)
  {
    if d == c {
      var n, msgs := srv.read[c], C.Sent(h, c);
      CI.RequestsAppend(msgs[..n], msgs[n], id);
      assert msgs[..n] + [msgs[n]] == msgs[..n + 1];
    }
  }

  lemma ReadOneKeeps(h: C.History, srv: Server, c: Conn)
    requires ServerInv(h, srv) && c in srv.read && srv.read[c] < |C.Sent(h, c)|
    ensures ServerInv(h, ReadOne(srv, c))
    ensures C.Sent(h, c)[srv.read[c]].MRequest? ==> Seen(h, ReadOne(srv, c), c, C.Sent(h, c)[srv.read[c]].request.id)
  {
    var srv' := ReadOne(srv, c);
    var n, msgs := srv.read[c], C.Sent(h, c);
    assert msgs[..n] + [msgs[n]] == msgs[..n + 1];
    if msgs[n].MRequest? {
      CI.RequestsAppend(msgs[..n], msgs[n], msgs[n].request.id);
    }
    forall d
      ensures ConnOk(h, srv', d)
    {
      assert ConnOk(h, srv, d);
    }
    forall d, j: nat | d in srv'.sent && j < |srv'.sent[d]|
      ensures AnswerOk(h, srv', d, j)
    {
      assert AnswersOk(h, srv, d) && AnswerOk(h, srv, d, j);
      SeenReadOne(h, srv, c, d, srv.sent[d][j].id);
    }
    assert forall d :: AnswersOk(h, srv', d);
    forall k
      ensures ActiveOk(srv', k)
    {
      assert ActiveOk(srv, k);
    }
    forall e
      ensures ExecOk(h, srv', e)
    {
      assert ExecOk(h, srv, e);
      if e in srv.execs {
        SeenReadOne(h, srv, c, srv.execs[e].key.conn, srv.execs[e].key.id);
      }
    }
    forall e, e'
      ensures OneExec(srv', e, e')
    {
      assert OneExec(srv, e, e');
    }
  }

  /** Answering a handled request that has no answer and no active token yet. */
  lemma AnsweredKeeps(h: C.History, srv: Server, c: Conn, a: Answer, ok: bool)
    requires ServerInv(h, srv) && Seen(h, srv, c, a.id) && !AnsweredIn(srv, c, a.id) && R.Key(c, a.id) !in srv.active
    requires a.cause.Some? ==>
               && a.cause.value in srv.execs && srv.execs[a.cause.value].key == R.Key(c, a.id)
               && a.cause.value in srv.fates && srv.fates[a.cause.value] == TakenByReply
    ensures ServerInv(h, Answered(srv, c, a, ok))
  {
    var srv' := Answered(srv, c, a, ok);
    forall d
      ensures ConnOk(h, srv', d)
    {
      assert ConnOk(h, srv, d);
    }
    forall d, j: nat | d in srv'.sent && j < |srv'.sent[d]|
      ensures AnswerOk(h, srv', d, j)
    {
      assert AnswersOk(h, srv, d);
      if j < |srv.sent[d]| {
        assert AnswerOk(h, srv, d, j);
        assert Seen(h, srv', d, srv.sent[d][j].id);
      } else {
        assert Seen(h, srv', c, a.id);
      }
    }
    assert forall d :: AnswersOk(h, srv', d);
    forall k
      ensures ActiveOk(srv', k)
    {
      assert ActiveOk(srv, k) && k == R.Key(k.conn, k.id);
      forall j | k in srv.active && k.conn in srv'.sent && 0 <= j < |srv'.sent[k.conn]|
        ensures srv'.sent[k.conn][j].id != k.id
      {}
    }
    forall e
      ensures ExecOk(h, srv', e)
    {
      assert ExecOk(h, srv, e);
    }
    forall e, e'
      ensures OneExec(srv', e, e')
    {
      assert OneExec(srv, e, e');
    }
  }

  /** A registered token starts a new execution of a request that was never tried before. */
  lemma RegisteredKeeps(h: C.History, srv: Server, c: Conn, id: Id)
    requires ServerInv(h, srv) && Seen(h, srv, c, id) && Untried(srv, c, id) && c !in srv.closed
    ensures ServerInv(h, Enrolled(srv, R.Key(c, id)))
  {
    var n := srv.nextExec;
    var srv' := Enrolled(srv, R.Key(c, id));
    assert ExecOk(h, srv, n);
    assert n !in srv.execs;
    forall d
      ensures ConnOk(h, srv', d)
    {
      assert ConnOk(h, srv, d);
    }
    forall d, j: nat | d in srv'.sent && j < |srv'.sent[d]|
      ensures AnswerOk(h, srv', d, j)
    {
      assert AnswersOk(h, srv, d) && AnswerOk(h, srv, d, j);
    }
    assert forall d :: AnswersOk(h, srv', d);
    forall k
      ensures ActiveOk(srv', k)
    {
      assert ActiveOk(srv, k);
      assert k in srv'.active && k != R.Key(c, id) ==> k in srv.active;
    }
    forall e
      ensures ExecOk(h, srv', e)
    {
      assert ExecOk(h, srv, e);
      assert Seen(h, srv', c, id);
    }
    forall e, e'
      ensures OneExec(srv', e, e')
    {
      assert OneExec(srv, e, e');
    }
  }

  /** Removing active tokens with a fate, marked as cancelled or not; shared by reply, cancel and close. */
  ghost predicate Decided(srv: Server, srv': Server) {
    && srv' == srv.(active := srv'.active, canceled := srv'.canceled, fates := srv'.fates,
                    closed := srv'.closed, posted := srv'.posted)
    && (forall k | k in srv'.active :: k in srv.active && srv'.active[k] == srv.active[k])
    && (forall e | e in srv'.canceled :: e in srv.canceled || e in srv'.fates)
    && (forall e | e in srv'.fates && e !in srv.fates ::
          && e in srv.execs && srv.execs[e].key in srv.active && srv.active[srv.execs[e].key] == e
          && srv.execs[e].key !in srv'.active)
    && (forall e | e in srv.fates :: e in srv'.fates && srv'.fates[e] == srv.fates[e])
    && (forall k | k in srv.active && k !in srv'.active :: srv.active[k] in srv'.fates)
    && (forall k | k in srv'.active :: k.conn !in srv'.closed)
    && (forall e | e in srv'.posted :: e in srv.posted)
  }

  lemma DecidedKeeps(h: C.History, srv: Server, srv': Server)
    requires ServerInv(h, srv) && Decided(srv, srv')
    ensures ServerInv(h, srv')
  {
    forall d
      ensures ConnOk(h, srv', d)
    {
      assert ConnOk(h, srv, d);
    }
    forall d, j: nat | d in srv'.sent && j < |srv'.sent[d]|
      ensures AnswerOk(h, srv', d, j)
    {
      assert AnswersOk(h, srv, d) && AnswerOk(h, srv, d, j);
    }
    assert forall d :: AnswersOk(h, srv', d);
    forall k
      ensures ActiveOk(srv', k)
    {
      assert ActiveOk(srv, k);
    }
    forall e
      ensures ExecOk(h, srv', e)
    {
      assert ExecOk(h, srv, e);
      if e in srv.execs {
        assert ActiveOk(srv, srv.execs[e].key);
      }
    }
    forall e, e'
      ensures OneExec(srv', e, e')
    {
      assert OneExec(srv, e, e');
    }
  }

  lemma ActiveFacts(h: C.History, srv: Server)
    requires ServerInv(h, srv)
    ensures forall k | k in srv.active ::
              && srv.active[k] in srv.execs && srv.execs[srv.active[k]].key == k
              && srv.active[k] !in srv.fates && k.conn !in srv.closed
  {
    forall k | k in srv.active
      ensures && srv.active[k] in srv.execs && srv.execs[srv.active[k]].key == k
              && srv.active[k] !in srv.fates && k.conn !in srv.closed
    {
      assert ActiveOk(srv, k);
    }
  }

  lemma CancelKeeps(h: C.History, srv: Server, key: R.Key)
    requires ServerInv(h, srv)
    ensures ServerInv(h, CancelStep(srv, key))
  {
    if key in srv.active {
      ActiveFacts(h, srv);
      DecidedKeeps(h, srv, CancelStep(srv, key));
    }
  }

  lemma ServerDownKeeps(h: C.History, srv: Server, c: Conn)
    requires ServerInv(h, srv)
    ensures ServerInv(h, ServerDownStep(srv, c))
  {
    ActiveFacts(h, srv);
    DecidedKeeps(h, srv, ServerDownStep(srv, c));
  }

  /** Only flags and posted replies change, and a posted reply has its flag set. */
  ghost predicate OnlyReplied(srv: Server, srv': Server) {
    && srv' == srv.(execs := srv'.execs, posted := srv'.posted, first := srv'.first)
    && srv'.execs.Keys == srv.execs.Keys
    && (forall x | x in srv.execs :: srv'.execs[x].key == srv.execs[x].key)
    && (forall x | x in srv'.posted :: x in srv'.execs && srv'.execs[x].replied)
  }

  lemma RepliedKeeps(h: C.History, srv: Server, srv': Server)
    requires ServerInv(h, srv) && OnlyReplied(srv, srv')
    ensures ServerInv(h, srv')
  {
    forall d
      ensures ConnOk(h, srv', d)
    {
      assert ConnOk(h, srv, d);
    }
    forall d, j: nat | d in srv'.sent && j < |srv'.sent[d]|
      ensures AnswerOk(h, srv', d, j)
    {
      assert AnswersOk(h, srv, d) && AnswerOk(h, srv, d, j);
    }
    assert forall d :: AnswersOk(h, srv', d);
    forall k
      ensures ActiveOk(srv', k)
    {
      assert ActiveOk(srv, k);
    }
    forall x
      ensures ExecOk(h, srv', x)
    {
      assert ExecOk(h, srv, x);
    }
    forall x, x'
      ensures OneExec(srv', x, x')
    {
      assert OneExec(srv, x, x');
    }
  }

  lemma ReplyKeeps(h: C.History, srv: Server, e: Exec, outcome: HandlerOutcome, alive: bool)
    requires ServerInv(h, srv) && e in srv.execs
    ensures ServerInv(h, ReplyStep(srv, e, outcome, alive))
  {
    var srv' := ReplyStep(srv, e, outcome, alive);
    assert OnlyReplied(srv, srv') by {
      forall x | x in srv.posted
        ensures x in srv.execs && srv.execs[x].replied
      {
        assert ExecOk(h, srv, x);
      }
    }
    RepliedKeeps(h, srv, srv');
  }

  /** A posted reply takes its own token, never that of another execution. */
  lemma TakesOwnToken(h: C.History, srv: Server, e: Exec)
    requires ServerInv(h, srv) && e in srv.execs && srv.execs[e].key in srv.active
    ensures srv.active[srv.execs[e].key] == e && e !in srv.canceled
  {
    var key := srv.execs[e].key;
    assert ActiveOk(srv, key) && OneExec(srv, e, srv.active[key]);
  }

  lemma RunPostedKeeps(h: C.History, srv: Server, e: Exec, ok: bool)
    requires ServerInv(h, srv) && e in srv.posted && e in srv.execs
    ensures ServerInv(h, RunPostedStep(srv, e, ok))
  {
    var srv1 := srv.(posted := srv.posted - {e});
    var key := srv.execs[e].key;
    ActiveFacts(h, srv);
    if key !in srv.active {
      DecidedKeeps(h, srv, srv1);
    } else {
      TakesOwnToken(h, srv, e);
      var srv2 := srv1.(active := R.RemoveFrom(srv.active, key), fates := srv.fates[e := TakenByReply]);
      DecidedKeeps(h, srv, srv2);
      assert ExecOk(h, srv, e) && ActiveOk(srv, key);
      assert Seen(h, srv2, key.conn, key.id) && key == R.Key(key.conn, key.id);
      AnsweredKeeps(h, srv2, key.conn, Answer(key.id, Handler(srv.posted[e]), Some(e)), ok);
    }
  }

  lemma DropPostedKeeps(h: C.History, srv: Server, e: Exec)
    requires ServerInv(h, srv)
    ensures ServerInv(h, DropPostedStep(srv, e))
  {
    ActiveFacts(h, srv);
    DecidedKeeps(h, srv, DropPostedStep(srv, e));
  }

  lemma RequestKeeps(h: C.History, srv: Server, c: Conn, r: Request, outcome: HandlerOutcome, ok: bool)
    requires ServerInv(h, srv) && Seen(h, srv, c, r.id) && Untried(srv, c, r.id) && c !in srv.closed
    ensures ServerInv(h, RequestStep(srv, c, r, outcome, ok))
    ensures R.StatusOf(srv.active.Keys, srv.cfg.limits, R.Key(c, r.id)) != R.DuplicateRequestId
  {
    AnsweredKeeps(h, srv, c, Answer(r.id, Handler(outcome), None), ok);
    AnsweredKeeps(h, srv, c, Answer(r.id, LimitReached, None), ok);
    AnsweredKeeps(h, srv, c, Answer(r.id, MethodNotFound, None), ok);
    RegisteredKeeps(h, srv, c, r.id);
  }

  lemma RecvKeeps(h: C.History, srv: Server, c: Conn, outcome: HandlerOutcome, ok: bool)
    requires CI.OutInv(h) && ServerInv(h, srv) && c in srv.read && c !in srv.closed && srv.read[c] < |C.Sent(h, c)|
    ensures ServerInv(h, RecvStep(srv, c, C.Sent(h, c)[srv.read[c]], outcome, ok))
  {
    var m := C.Sent(h, c)[srv.read[c]];
    var srv1 := ReadOne(srv, c);
    ReadOneKeeps(h, srv, c);
    match AsSent(srv.cfg.maxSize, m)
    case Unusable =>
    case CancelFor(id) => CancelKeeps(h, srv1, R.Key(c, id));
    case RequestFor(r) =>
      NextIsUnseen(h, srv, c);
      UnseenIsUntried(h, srv, c, r.id);
      assert Untried(srv1, c, r.id);
      RequestKeeps(h, srv1, c, r, outcome, ok);
  }

  // ------------------------------------------------------------ the whole system

  ghost predicate SentGrows(srv: Server, srv': Server) {
    srv'.cfg == srv.cfg && forall c | c in srv.sent :: c in srv'.sent && srv.sent[c] <= srv'.sent[c]
  }

  lemma AnsweredSentGrows(srv: Server, c: Conn, a: Answer, ok: bool)
    ensures SentGrows(srv, Answered(srv, c, a, ok))
  {}

  lemma AsyncSentGrows(srv: Server, c: Conn, id: Id, ok: bool)
    ensures SentGrows(srv, AsyncStep(srv, c, id, ok))
  {
    AnsweredSentGrows(srv, c, Answer(id, LimitReached, None), ok);
  }

  lemma RequestSentGrows(srv: Server, c: Conn, r: Request, outcome: HandlerOutcome, ok: bool)
    ensures SentGrows(srv, RequestStep(srv, c, r, outcome, ok))
  {
    AsyncSentGrows(srv, c, r.id, ok);
    AnsweredSentGrows(srv, c, Answer(r.id, Handler(outcome), None), ok);
    AnsweredSentGrows(srv, c, Answer(r.id, MethodNotFound, None), ok);
  }

  lemma ServerSentGrows(s: Sys, v: ServerEvent)
    requires ServerEnabled(s, v)
    ensures SentGrows(s.srv, ServerNext(s, v))
  {
    if v.Recv? {
      var m := C.Sent(s.client.h, v.conn)[s.srv.read[v.conn]];
      if m.MRequest? {
        RequestSentGrows(ReadOne(s.srv, v.conn), v.conn, m.request, v.outcome, v.ok);
      }
    }
  }

  lemma ServerKeeps(s: Sys, v: ServerEvent)
    requires CI.OutInv(s.client.h) && ServerInv(s.client.h, s.srv) && ServerEnabled(s, v)
    ensures ServerInv(s.client.h, ServerNext(s, v))
  {
    var h := s.client.h;
    match v
    case Recv(c, outcome, ok) => RecvKeeps(h, s.srv, c, outcome, ok);
    case Reply(e, outcome, alive) => ReplyKeeps(h, s.srv, e, outcome, alive);
    case RunPosted(e, ok) => RunPostedKeeps(h, s.srv, e, ok);
    case DropPosted(e) => DropPostedKeeps(h, s.srv, e);
    case ServerDown(c) => ServerDownKeeps(h, s.srv, c);
  }

  lemma LinkKept(s: Sys, srv': Server)
    requires LinkInv(s) && SentGrows(s.srv, srv')
    ensures LinkInv(s.(srv := srv'))
  {
    if s.client.conn.Some? {
      var c := s.client.conn.value;
      forall id | id in s.client.h.answered
        ensures exists j :: 0 <= j < s.got && srv'.sent[c][j].id == id
      {
        var j :| 0 <= j < s.got && s.srv.sent[c][j].id == id;
        assert srv'.sent[c][j].id == id;
      }
    }
  }

  lemma ServerStepInv(s: Sys, v: ServerEvent)
    requires Inv(s) && ServerEnabled(s, v)
    ensures Inv(s.(srv := ServerNext(s, v)))
  {
    var srv' := ServerNext(s, v);
    ServerKeeps(s, v);
    ServerSentGrows(s, v);
    LinkKept(s, srv');
  }

  lemma ClientStepInv(s: Sys, e: C.Event)
    requires Inv(s) && Enabled(s, ClientDoes(e))
    ensures Inv(Next(s, ClientDoes(e)))
  {
    var s' := Next(s, ClientDoes(e));
    CS.StepInv(s.client, e);
    assert OnKnownConn(s.client) by {
      if s.client.conn.Some? {
        assert ConnOk(s.client.h, s.srv, s.client.conn.value);
      }
    }
    QuietEvent(s.client, e);
    ServerInvGrows(s.client.h, s'.client.h, s.srv);
  }

  lemma EstablishInv(s: Sys)
    requires Inv(s) && Enabled(s, Establish)
    ensures Inv(Next(s, Establish))
  {
    var s' := Next(s, Establish);
    var h, h', srv, srv' := s.client.h, s'.client.h, s.srv, s'.srv;
    CS.UpInv(s.client);
    assert h.nextConn !in h.out;
    forall c
      ensures ConnOk(h', srv', c)
    {
      assert ConnOk(h, srv, c);
    }
    assert ConnOk(h, srv, h.nextConn);
    forall c, id
      ensures Seen(h, srv, c, id) ==> Seen(h', srv', c, id)
    {
      assert ConnOk(h, srv, c);
    }
    forall c, j: nat | c in srv'.sent && j < |srv'.sent[c]|
      ensures AnswerOk(h', srv', c, j)
    {
      assert AnswersOk(h, srv, c) && AnswerOk(h, srv, c, j);
    }
    assert forall c :: AnswersOk(h', srv', c);
    forall k
      ensures ActiveOk(srv', k)
    {
      assert ActiveOk(srv, k);
    }
    forall e
      ensures ExecOk(h', srv', e)
    {
      assert ExecOk(h, srv, e);
    }
    forall e, e'
      ensures OneExec(srv', e, e')
    {
      assert OneExec(srv, e, e');
    }
  }

  lemma DeliverLink(s: Sys, answer: Outcome<Response>)
    requires LinkInv(s) && Enabled(s, Deliver(answer))
    ensures LinkInv(Next(s, Deliver(answer)))
  {
    var c := s.client.conn.value;
    var client' := C.MessageStep(s.client, answer);
    assert client'.conn == s.client.conn;
    forall id | id in client'.h.answered
      ensures exists j :: 0 <= j < s.got + 1 && s.srv.sent[c][j].id == id
    {
      if id in s.client.h.answered {
        var j :| 0 <= j < s.got && s.srv.sent[c][j].id == id;
      } else {
        assert s.srv.sent[c][s.got].id == id;
      }
    }
  }

  lemma MessageSendsNothing(s: C.State, answer: Outcome<Response>)
    ensures C.MessageStep(s, answer).h.out == s.h.out
  {}

  lemma ServerInvSame(h: C.History, h': C.History, srv: Server)
    requires ServerInv(h, srv) && h'.out == h.out
    ensures ServerInv(h', srv)
  {
    ServerInvGrows(h, h', srv);
  }

  lemma DeliverInv(s: Sys, answer: Outcome<Response>)
    requires Inv(s) && Enabled(s, Deliver(answer))
    ensures Inv(Next(s, Deliver(answer)))
  {
    CS.MessageInv(s.client, answer);
    DeliverLink(s, answer);
    MessageSendsNothing(s.client, answer);
    ServerInvSame(s.client.h, Next(s, Deliver(answer)).client.h, s.srv);
  }

  lemma StepInv(s: Sys, s': Sys)
    requires Inv(s) && Step(s, s')
    ensures Inv(s')
  {
    var e :| Enabled(s, e) && s' == Next(s, e);
    match e
    case ClientDoes(ce) => ClientStepInv(s, ce);
    case Establish => EstablishInv(s);
    case Deliver(answer) => DeliverInv(s, answer);
    case ServerDoes(v) => ServerStepInv(s, v);
  }

  lemma {:induction false} RunInv(run: seq<Sys>, i: nat)
    requires IsRun(run) && i < |run|
    ensures Inv(run[i])
  {
    if i == 0 {
      InitInv(run[0]);
    } else {
      RunInv(run, i - 1);
      assert StepAt(run, i - 1);
      StepInv(run[i - 1], run[i]);
    }
  }
}
