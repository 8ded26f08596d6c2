/** What every interleaving of client, server and connections guarantees. */
module EndToEndProperties {
  import opened Options
  import opened Sets
  import opened RpcMessage
  import opened ServerReply
  import opened EndToEnd
  import C = ClientModel
  import CI = ClientInvariant
  import R = CancellationRegistry

  /** In every interleaving the server never sees an id twice on a connection: no registration is ever a duplicate,
      and every request it handles is new to its registry, its executions and its answers. */
  lemma NeverDuplicate(run: seq<Sys>, i: nat, c: Conn)
    requires IsRun(run) && i < |run| && c in run[i].srv.read && run[i].srv.read[c] < |C.Sent(run[i].client.h, c)|
    ensures run[i].srv.duplicates == 0
    ensures var m := C.Sent(run[i].client.h, c)[run[i].srv.read[c]];
            m.MRequest? ==>
              && Untried(run[i].srv, c, m.request.id)
              && R.StatusOf(run[i].srv.active.Keys, run[i].srv.cfg.limits, R.Key(c, m.request.id))
                 != R.DuplicateRequestId
  {
    RunInv(run, i);
    var s := run[i];
    if C.Sent(s.client.h, c)[s.srv.read[c]].MRequest? {
      NextIsUnseen(s.client.h, s.srv, c);
      UnseenIsUntried(s.client.h, s.srv, c, C.Sent(s.client.h, c)[s.srv.read[c]].request.id);
    }
  }

  /** In every run the bytes of every message the client sent are read by the server as that message, or as unusable
      when they are above its limit: abstract messages and bytes agree. */
  lemma EveryMessageIsRead(run: seq<Sys>, i: nat, c: Conn, j: nat)
    requires IsRun(run) && i < |run| && j < |C.Sent(run[i].client.h, c)|
    ensures var m := C.Sent(run[i].client.h, c)[j];
            ServerParse(run[i].srv.cfg.maxSize, Wire(m)) == AsSent(run[i].srv.cfg.maxSize, m)
  {
    RunInv(run, i);
    var s := run[i];
    var m := C.Sent(s.client.h, c)[j];
    if m.MRequest? {
      assert CI.CopiesOk(s.client.h, c) && CI.CopyOk(s.client.h, m);
      assert CI.Good(s.client, m.request.id);
      CI.FitsEncodes(s.client.cfg, m.request.id, s.client.h.ledger[m.request.id].body);
    }
    ServerReadsWhatWasSent(s.srv.cfg.maxSize, m);
  }

  ghost predicate FramesInv(srv: Server) {
    srv.cfg.maxSize <= MAX_MESSAGE_SIZE && OnlyFrames(srv)
  }

  lemma FramesStep(s: Sys, s': Sys)
    requires FramesInv(s.srv) && Step(s, s')
    ensures FramesInv(s'.srv)
  {
    var e :| Enabled(s, e) && s' == Next(s, e);
    if e.ServerDoes? {
      ServerSentGrows(s, e.v);
    }
  }

  lemma {:induction false} RunFrames(run: seq<Sys>, i: nat)
    requires IsRun(run) && i < |run|
    ensures FramesInv(run[i].srv)
  {
    if i > 0 {
      RunFrames(run, i - 1);
      assert StepAt(run, i - 1);
      FramesStep(run[i - 1], run[i]);
    }
  }

  /** What the client makes of the bytes of an answer. */
  function ReadByClient(s: Sys, a: Answer): Outcome<Response>
    requires Framed(a, s.srv.cfg.maxSize)
  {
    C.ParseResponse(s.client.cfg, Send(a.id, ResultOf(a.kind), s.srv.cfg.maxSize).bytes)
  }

  /** In every run every answer under way is a frame; delivering what the client reads from the bytes of the next one
      is a step of the system; and the client reads the response that was meant unless it is above its limit. */
  lemma EveryAnswerIsRead(run: seq<Sys>, i: nat)
    requires IsRun(run) && i < |run| && run[i].client.stack.Bottom? && run[i].client.conn.Some?
    requires run[i].client.conn.value in run[i].srv.sent && run[i].got < |run[i].srv.sent[run[i].client.conn.value]|
    ensures var s := run[i]; var a := s.srv.sent[s.client.conn.value][s.got];
            && Framed(a, s.srv.cfg.maxSize) && Enabled(s, Deliver(ReadByClient(s, a)))
            && ReadByClient(s, a)
               == if |Send(a.id, ResultOf(a.kind), s.srv.cfg.maxSize).bytes| > s.client.cfg.MaxSize() then Err("")
                  else Ok(Intended(a.id, ResultOf(a.kind), s.srv.cfg.maxSize))
  {
    RunFrames(run, i);
    var s := run[i];
    var a := s.srv.sent[s.client.conn.value][s.got];
    assert Framed(a, s.srv.cfg.maxSize);
    ClientReadsWhatWasSent(s.client.cfg, a, s.srv.cfg.maxSize);
  }

  /** Every response frame on a connection answers a request of that connection, no request is answered twice, and an
      answer caused by an execution is for that execution's own connection and id, whose token its reply took. */
  lemma AnswersAreUnique(run: seq<Sys>, i: nat, c: Conn, j: nat)
    requires IsRun(run) && i < |run| && c in run[i].srv.sent && j < |run[i].srv.sent[c]|
    ensures var a := run[i].srv.sent[c][j];
            && CI.Requests(C.Sent(run[i].client.h, c), a.id) == 1
            && (forall k | 0 <= k < |run[i].srv.sent[c]| && k != j :: run[i].srv.sent[c][k].id != a.id)
            && (a.cause.Some? ==>
                  && a.cause.value in run[i].srv.fates && run[i].srv.fates[a.cause.value] == TakenByReply
                  && a.cause.value in run[i].srv.execs
                  && run[i].srv.execs[a.cause.value].key == R.Key(c, a.id))
  {
    RunInv(run, i);
    var h, srv := run[i].client.h, run[i].srv;
    assert AnswersOk(h, srv, c) && AnswerOk(h, srv, c, j);
    RequestsPrefix(C.Sent(h, c), srv.read[c], srv.sent[c][j].id);
    assert CI.OutOk(h, c, srv.sent[c][j].id);
    forall k: nat | k < |srv.sent[c]| && k != j
      ensures srv.sent[c][k].id != srv.sent[c][j].id
    {
      assert AnswerOk(h, srv, c, k);
    }
  }

  /** The answer that arrives next is for a request the client sent on this connection and has not had answered. */
  lemma NextAnswerIsTracked(s: Sys)
    requires Inv(s) && s.client.conn.Some?
    requires s.client.conn.value in s.srv.sent && s.got < |s.srv.sent[s.client.conn.value]|
    ensures var id := s.srv.sent[s.client.conn.value][s.got].id;
            (id in s.client.pending || id in s.client.ignored) <==> id !in s.client.h.forgot
  {
    var c := s.client.conn.value;
    var h, srv := s.client.h, s.srv;
    var id := srv.sent[c][s.got].id;
    assert AnswersOk(h, srv, c) && AnswerOk(h, srv, c, s.got);
    RequestsPrefix(C.Sent(h, c), srv.read[c], id);
    assert CI.OutOk(h, c, id) && CI.Good(s.client, id);
    assert id !in h.answered;
  }

  /** In every run, the client treats a response of the server as unknown, and closes the connection, exactly when it
      has itself forgotten the id: by the one-minute expiry or by a second `disconnect()` before the link went down. */
  lemma UnknownCloseIff(run: seq<Sys>, i: nat, answer: Outcome<Response>)
    requires IsRun(run) && i < |run| && Enabled(run[i], Deliver(answer)) && answer.Ok?
    ensures Next(run[i], Deliver(answer)).client.h.unknownCloses == run[i].client.h.unknownCloses + 1
            <==> answer.value.id in run[i].client.h.forgot
  {
    RunInv(run, i);
    NextAnswerIsTracked(run[i]);
  }

  // ------------------------------------------------ when the client forgets an id

  /** The two steps that make the client forget a request it sent on the living connection: the sweep finds an entry
      past its minute, or `disconnect()` is called again while the first one is still closing the connection. */
  predicate Forgets(s: C.State, e: C.Event) {
    || (e.User? && e.u.Disconnect? && s.status == C.Disconnecting && s.pending.Keys != {})
    || (e.Loop? && e.l.Sweep? && exists id :: id in s.ignored && s.ignored[id] <= e.l.now)
  }

  ghost predicate Recalls(s: C.State, s': C.State) {
    s'.h.forgot <= s.h.forgot && s'.h.unknownCloses == s.h.unknownCloses
  }

  lemma RecallsLoop(s: C.State, l: C.LoopEvent)
    requires C.LoopEnabled(s, l) && !Forgets(s, C.Loop(l)) && !l.Message?
    ensures Recalls(s, C.LoopNext(s, l))
  {
    if l.Sweep? {
      assert s.ignored.Keys - C.Unexpired(s.ignored, l.now).Keys == {};
    }
  }

  lemma RecallsFrame(s: C.State, f: C.FrameEvent)
    requires C.FrameEnabled(s, f)
    ensures Recalls(s, C.FrameNext(s, f))
  {}

  lemma RecallsEvent(s: C.State, e: C.Event)
    requires C.Enabled(s, e) && !Forgets(s, e) && !(e.Loop? && e.l.Message?)
    ensures Recalls(s, C.Next(s, e))
  {
    match e
    case User(_) =>
    case Loop(l) => RecallsLoop(s, l);
    case Inside(f) => RecallsFrame(s, f);
  }

  /** No other client step makes it forget anything, and only these two do. */
  lemma ForgetsIff(s: C.State, e: C.Event)
    requires CI.Inv(s) && C.Enabled(s, e) && !(e.Loop? && e.l.Message?)
    ensures !(C.Next(s, e).h.forgot <= s.h.forgot) <==> Forgets(s, e)
  {
    if !Forgets(s, e) {
      RecallsEvent(s, e);
    } else if e.User? {
      var id :| id in s.pending.Keys;
      assert CI.Good(s, id);
      assert id in C.Next(s, e).h.forgot;
    } else {
      var id :| id in s.ignored && s.ignored[id] <= e.l.now;
      assert CI.Good(s, id);
      assert id in C.Next(s, e).h.forgot;
    }
  }

  /** A step that does not make the client forget. */
  ghost predicate Remembers(s: Sys, s': Sys) {
    exists e :: Enabled(s, e) && s' == Next(s, e) && !(e.ClientDoes? && Forgets(s.client, e.e))
  }

  ghost predicate RemembersAt(run: seq<Sys>, i: nat)
    requires i + 1 < |run|
  {
    Remembers(run[i], run[i + 1])
  }

  ghost predicate NothingForgotten(s: Sys) {
    s.client.h.forgot == {} && s.client.h.unknownCloses == 0
  }

  lemma RemembersDeliver(s: Sys, answer: Outcome<Response>)
    requires Inv(s) && Enabled(s, Deliver(answer)) && NothingForgotten(s)
    ensures NothingForgotten(Next(s, Deliver(answer)))
  {
    NextAnswerIsTracked(s);
  }

  lemma RemembersStep(s: Sys, s': Sys)
    requires Inv(s) && Remembers(s, s') && NothingForgotten(s)
    ensures NothingForgotten(s')
  {
    var e :| Enabled(s, e) && s' == Next(s, e) && !(e.ClientDoes? && Forgets(s.client, e.e));
    match e
    case ClientDoes(ce) => RecallsEvent(s.client, ce);
    case Establish =>
    case Deliver(answer) => RemembersDeliver(s, answer);
    case ServerDoes(_) =>
  }

  /** In every run without such a step the client never closes a connection for an unknown id. */
  lemma {:induction false} NeverUnknown(run: seq<Sys>, i: nat)
    requires IsRun(run) && i < |run| && forall k: nat | k + 1 < |run| :: RemembersAt(run, k)
    ensures NothingForgotten(run[i])
  {
    if i > 0 {
      NeverUnknown(run, i - 1);
      RunInv(run, i - 1);
      assert RemembersAt(run, i - 1);
      RemembersStep(run[i - 1], run[i]);
    }
  }

  ghost function Last(run: seq<Sys>): Sys
    requires run != []
  {
    run[|run| - 1]
  }

  lemma Extend(run: seq<Sys>, e: Event) returns (run': seq<Sys>)
    requires IsRun(run) && Enabled(Last(run), e)
    ensures IsRun(run') && Last(run') == Next(Last(run), e)
  {
    run' := run + [Next(Last(run), e)];
    forall i: nat | i + 1 < |run'|
      ensures StepAt(run', i)
    {
      assert i + 1 < |run| ==> StepAt(run, i);
    }
  }

  /** Request 1 has been sent on connection 0, and its response is on the way back. */
  ghost predicate OneInFlight(s: Sys) {
    && s.client.status == C.Connected && s.client.conn == Some(0) && s.client.stack == C.Bottom
    && s.client.pending.Keys == {1} && s.client.ignored == map[] && s.client.h.unknownCloses == 0
    && s.srv.cfg.maxSize == MAX_MESSAGE_SIZE
    && s.got == 0 && 0 in s.srv.sent && s.srv.sent[0] == [Answer(1, MethodNotFound, None)]
  }

  lemma ConnectedRun() returns (run: seq<Sys>)
    ensures IsRun(run)
    ensures var s := Last(run);
            && s.client.status == C.Connected && s.client.conn == Some(0) && s.client.up && s.client.stack == C.Bottom
            && s.client.cfg.maxPending == None && s.client.cfg.maxMessageSize == None
            && s.client.pending == map[] && s.client.ignored == map[] && s.client.h.unknownCloses == 0
            && s.client.h.out == map[0 := []] && s.client.nextId == 1 && s.client.queued == map[] && s.got == 0
            && s.srv.sent == map[0 := []] && s.srv.read == map[0 := 0] && s.srv.closed == {}
            && s.srv.cfg.maxSize == MAX_MESSAGE_SIZE && s.srv.cfg.sync == {} && s.srv.cfg.async == {}
  {
    var client := C.State(C.Config(None, None, 1000, 1), C.Disconnected, None, false, false, 1,
                          map[], map[], map[], {}, 0, C.Bottom, C.History(map[], [], map[], map[], {}, {}, 0, 0, 0));
    var srv := Server(ServerConfig(R.Limits(None, None), MAX_MESSAGE_SIZE, {}, {}),
                      map[], {}, map[], 0, map[], map[], {}, map[], map[], 0, map[]);
    run := [Sys(client, srv, 0)];
    run := Extend(run, Establish);
    run := Extend(run, ClientDoes(C.Inside(C.Resume)));
    run := Extend(run, ClientDoes(C.Inside(C.Resume)));
    assert Last(run).client.stack.top == C.Resend(0, {});
    run := Extend(run, ClientDoes(C.Inside(C.Resume)));
  }

  /** Request 1 has been sent on connection 0, and the server has not read it yet. */
  ghost predicate OneSent(s: Sys) {
    && s.client.status == C.Connected && s.client.conn == Some(0) && s.client.stack == C.Bottom
    && s.client.pending.Keys == {1} && s.client.ignored == map[] && s.client.h.unknownCloses == 0
    && C.Sent(s.client.h, 0) == [C.MRequest(C.MakeRequest(1, C.Body([], [], [])))] && s.got == 0
    && s.srv.sent == map[0 := []] && s.srv.read == map[0 := 0] && s.srv.closed == {}
    && s.srv.cfg.maxSize == MAX_MESSAGE_SIZE && s.srv.cfg.sync == {} && s.srv.cfg.async == {}
  }

  lemma SentRun() returns (run: seq<Sys>)
    ensures IsRun(run) && OneSent(Last(run))
  {
    run := ConnectedRun();
    run := Extend(run, ClientDoes(C.User(C.Issue(C.Args(C.Body([], [], []), 0, 0, false, 0, None)))));
    run := Extend(run, ClientDoes(C.User(C.StartCall(1))));
  }

  lemma NotFoundIsFramed(id: Id)
    ensures Framed(Answer(id, MethodNotFound, None), MAX_MESSAGE_SIZE)
  {
    SentIsIntended(id, ResultOf(MethodNotFound), MAX_MESSAGE_SIZE);
  }

  /** The server reads request 1 and answers that there is no such method. */
  lemma ReceivesOne(s: Sys)
    requires OneSent(s)
    ensures Enabled(s, ServerDoes(Recv(0, Threw, true)))
    ensures OneInFlight(Next(s, ServerDoes(Recv(0, Threw, true))))
  {
    var a := Answer(1, MethodNotFound, None);
    assert Framed(a, MAX_MESSAGE_SIZE) by {
      NotFoundIsFramed(1);
    }
    var r := C.MakeRequest(1, C.Body([], [], []));
    assert AsSent(MAX_MESSAGE_SIZE, C.MRequest(r)) == RequestFor(r);
    var srv' := ServerNext(s, Recv(0, Threw, true));
    assert srv' == Answered(ReadOne(s.srv, 0), 0, a, true);
    assert srv'.sent[0] == [a] && srv'.sent.Keys == {0};
  }

  lemma InFlightRun() returns (run: seq<Sys>)
    ensures IsRun(run) && OneInFlight(Last(run))
  {
    run := SentRun();
    ReceivesOne(Last(run));
    run := Extend(run, ServerDoes(Recv(0, Threw, true)));
  }

  /** The response to request 1 is still on the way, but the client does not know the id any more. */
  ghost predicate AnswerOnTheWay(s: Sys) {
    && s.client.conn == Some(0) && s.client.stack == C.Bottom && s.client.pending == map[] && s.client.ignored == map[]
    && s.client.h.unknownCloses == 0 && s.srv.cfg.maxSize == MAX_MESSAGE_SIZE
    && s.got == 0 && 0 in s.srv.sent && s.srv.sent[0] == [Answer(1, MethodNotFound, None)]
  }

  lemma DeliverUnknown(run: seq<Sys>) returns (run': seq<Sys>)
    requires IsRun(run) && AnswerOnTheWay(Last(run))
    ensures IsRun(run') && Last(run').client.h.unknownCloses == 1
  {
    var answer := Intended(1, ResultOf(MethodNotFound), MAX_MESSAGE_SIZE);
    assert answer.id == 1 && WellShaped(answer) by {
      SentIsIntended(1, ResultOf(MethodNotFound), MAX_MESSAGE_SIZE);
    }
    run' := Extend(run, Deliver(Ok(answer)));
  }

  lemma TwiceDisconnectedRun() returns (run: seq<Sys>)
    ensures IsRun(run) && AnswerOnTheWay(Last(run))
  {
    run := InFlightRun();
    run := Extend(run, ClientDoes(C.User(C.Disconnect)));
    run := Extend(run, ClientDoes(C.User(C.Disconnect)));
    run := Extend(run, ClientDoes(C.Inside(C.Fire(1))));
    run := Extend(run, ClientDoes(C.Inside(C.Resume)));
    assert Last(run).client.stack.top.todo == map[];
    run := Extend(run, ClientDoes(C.Inside(C.Resume)));
  }

  /** It does happen: two calls of `disconnect()` while a response is on its way make the client call it unknown. */
  lemma UnknownCloseHappens() returns (run: seq<Sys>)
    ensures IsRun(run) && Last(run).client.h.unknownCloses == 1
  {
    run := TwiceDisconnectedRun();
    run := DeliverUnknown(run);
  }

  /** Request 1 was cancelled at time 0; its response is still on the way. */
  ghost predicate CanceledInFlight(s: Sys) {
    && s.client.conn == Some(0) && s.client.stack == C.Bottom && s.client.pending == map[]
    && s.client.ignored == map[1 := C.ONE_MINUTE]
    && s.client.h.unknownCloses == 0 && s.srv.cfg.maxSize == MAX_MESSAGE_SIZE
    && s.got == 0 && 0 in s.srv.sent && s.srv.sent[0] == [Answer(1, MethodNotFound, None)]
  }

  lemma CanceledRun() returns (run: seq<Sys>)
    ensures IsRun(run) && CanceledInFlight(Last(run))
  {
    run := InFlightRun();
    run := Extend(run, ClientDoes(C.User(C.Cancel(1, 0))));
    run := Extend(run, ClientDoes(C.Inside(C.Fire(1))));
    run := Extend(run, ClientDoes(C.Inside(C.Resume)));
    assert Last(run).client.stack.top.todo == map[];
    run := Extend(run, ClientDoes(C.Inside(C.Resume)));
  }

  lemma ExpiredRun() returns (run: seq<Sys>)
    ensures IsRun(run) && AnswerOnTheWay(Last(run))
  {
    run := CanceledRun();
    run := Extend(run, ClientDoes(C.Loop(C.Sweep(C.ONE_MINUTE))));
  }

  /** The other cause: a response that comes more than a minute after its request was cancelled. */
  lemma LateAnswerIsUnknown() returns (run: seq<Sys>)
    ensures IsRun(run) && Last(run).client.h.unknownCloses == 1
  {
    run := ExpiredRun();
    run := DeliverUnknown(run);
  }

  // --------------------------------------------------- one winner per execution

  ghost predicate FateKept(srv: Server, srv': Server, x: Exec) {
    && (x in srv.execs ==> x in srv'.execs && srv'.execs[x].key == srv.execs[x].key)
    && (x in srv.fates ==> x in srv'.fates && srv'.fates[x] == srv.fates[x])
    && (x in srv.first ==> x in srv'.first && srv'.first[x] == srv.first[x])
  }

  lemma FateKeptAnswered(srv: Server, c: Conn, a: Answer, ok: bool, x: Exec)
    ensures FateKept(srv, Answered(srv, c, a, ok), x)
  {}

  lemma FateKeptAsync(srv: Server, c: Conn, id: Id, ok: bool, x: Exec)
    requires srv.nextExec !in srv.execs
    ensures FateKept(srv, AsyncStep(srv, c, id, ok), x)
  {
    FateKeptAnswered(srv, c, Answer(id, LimitReached, None), ok, x);
  }

  lemma FateKeptRequest(srv: Server, c: Conn, r: Request, outcome: HandlerOutcome, ok: bool, x: Exec)
    requires srv.nextExec !in srv.execs
    ensures FateKept(srv, RequestStep(srv, c, r, outcome, ok), x)
  {
    FateKeptAsync(srv, c, r.id, ok, x);
    FateKeptAnswered(srv, c, Answer(r.id, Handler(outcome), None), ok, x);
    FateKeptAnswered(srv, c, Answer(r.id, MethodNotFound, None), ok, x);
  }

  lemma FateKeptServer(s: Sys, v: ServerEvent, x: Exec)
    requires ServerInv(s.client.h, s.srv) && ServerEnabled(s, v)
    ensures FateKept(s.srv, ServerNext(s, v), x)
  {
    var h, srv := s.client.h, s.srv;
    match v
    case Recv(c, outcome, ok) =>
      var srv1 := ReadOne(srv, c);
      match C.Sent(h, c)[srv.read[c]] {
        case MRequest(r) =>
          assert ExecOk(h, srv, srv.nextExec);
          FateKeptRequest(srv1, c, r, outcome, ok, x);
        case MCancel(id) => assert ActiveOk(srv, R.Key(c, id));
      }
    case Reply(e, outcome, alive) =>
    case RunPosted(e, ok) => assert ActiveOk(srv, srv.execs[e].key);
    case DropPosted(e) =>
    case ServerDown(c) => ActiveFacts(h, srv);
  }

  lemma FateKeptStep(s: Sys, s': Sys, x: Exec)
    requires Inv(s) && Step(s, s')
    ensures FateKept(s.srv, s'.srv, x)
  {
    var e :| Enabled(s, e) && s' == Next(s, e);
    if e.ServerDoes? {
      FateKeptServer(s, e.v, x);
    }
  }

  /** Once the race for a token is decided it stays decided. */
  lemma {:induction false} FatesAreFinal(run: seq<Sys>, i: nat, j: nat, x: Exec)
    requires IsRun(run) && i <= j < |run|
    ensures FateKept(run[i].srv, run[j].srv, x)
    decreases j
  {
    if i < j {
      FatesAreFinal(run, i, j - 1, x);
      RunInv(run, j - 1);
      assert StepAt(run, j - 1);
      FateKeptStep(run[j - 1], run[j], x);
    }
  }

  /** In every state each execution's token is still active and uncancelled, or exactly one of reply, cancel and close
      consumed it. */
  lemma SingleWinner(run: seq<Sys>, i: nat, x: Exec)
    requires IsRun(run) && i < |run| && x in run[i].srv.execs
    ensures var srv := run[i].srv; var key := srv.execs[x].key;
            && ((key in srv.active && srv.active[key] == x) <==> x !in srv.fates)
            && (key in srv.active ==> srv.active[key] == x && x !in srv.canceled)
  {
    RunInv(run, i);
    var h, srv := run[i].client.h, run[i].srv;
    assert ExecOk(h, srv, x) && ActiveOk(srv, srv.execs[x].key);
    if srv.execs[x].key in srv.active {
      TakesOwnToken(h, srv, x);
    }
  }

  /** Once cancel or close has won, no reply of that execution ever becomes a response frame, on any connection. */
  lemma LosersNeverAnswer(run: seq<Sys>, i: nat, j: nat, x: Exec, c: Conn, k: nat)
    requires IsRun(run) && i <= j < |run| && x in run[i].srv.fates && run[i].srv.fates[x] != TakenByReply
    requires c in run[j].srv.sent && k < |run[j].srv.sent[c]|
    ensures run[j].srv.sent[c][k].cause != Some(x)
  {
    FatesAreFinal(run, i, j, x);
    RunInv(run, j);
    assert AnswersOk(run[j].client.h, run[j].srv, c) && AnswerOk(run[j].client.h, run[j].srv, c, k);
  }

  /** However often a handler replies, at most one frame over all connections is due to it. */
  lemma OneFramePerExecution(run: seq<Sys>, i: nat, x: Exec, c: Conn, k: nat, c': Conn, k': nat)
    requires IsRun(run) && i < |run|
    requires c in run[i].srv.sent && k < |run[i].srv.sent[c]| && run[i].srv.sent[c][k].cause == Some(x)
    requires c' in run[i].srv.sent && k' < |run[i].srv.sent[c']| && run[i].srv.sent[c'][k'].cause == Some(x)
    ensures c == c' && k == k'
  {
    AnswersAreUnique(run, i, c, k);
    AnswersAreUnique(run, i, c', k');
  }

  // ---------------------------------------------------------------- the account

  function With(srv: Server, fate: Fate): (xs: set<Exec>) {
    set x | x in srv.fates && srv.fates[x] == fate
  }

  /** Every token is decided or active, and stands for one execution. */
  ghost predicate Booked(srv: Server) {
    && srv.fates.Keys <= srv.execs.Keys
    && (forall x | x in srv.execs && x !in srv.fates ::
          srv.execs[x].key in srv.active && srv.active[srv.execs[x].key] == x)
    && (forall k | k in srv.active ::
          srv.active[k] in srv.execs && srv.execs[srv.active[k]].key == k && srv.active[k] !in srv.fates)
  }

  lemma InvMeansBooked(h: C.History, srv: Server)
    requires ServerInv(h, srv)
    ensures Booked(srv)
  {
    forall x | x in srv.fates
      ensures x in srv.execs
    {
      assert ExecOk(h, srv, x);
    }
    forall x | x in srv.execs && x !in srv.fates
      ensures srv.execs[x].key in srv.active && srv.active[srv.execs[x].key] == x
    {
      assert ExecOk(h, srv, x);
    }
    ActiveFacts(h, srv);
  }

  lemma DecidedBySort(srv: Server)
    ensures |srv.fates.Keys| == |With(srv, TakenByReply)| + |With(srv, CanceledByClient)| + |With(srv, ClearedByClose)|
  {
    var takes, cancels, clears := With(srv, TakenByReply), With(srv, CanceledByClient), With(srv, ClearedByClose);
    assert srv.fates.Keys == takes + cancels + clears;
    assert |takes + cancels| == |takes| + |cancels|;
  }

  lemma OpenIsActive(srv: Server)
    requires Booked(srv)
    ensures |srv.execs.Keys - srv.fates.Keys| == |srv.active.Keys|
  {
    var open := srv.execs.Keys - srv.fates.Keys;
    forall k | k in srv.active.Keys
      ensures exists x :: x in open && srv.execs[x].key == k
    {
      assert srv.active[k] in open;
    }
    SameSize(open, srv.active.Keys, (x: Exec) requires x in srv.execs => srv.execs[x].key);
  }

  /** Registrations = takes + cancels + clears + still active. */
  lemma TokensBalance(run: seq<Sys>, i: nat)
    requires IsRun(run) && i < |run|
    ensures var srv := run[i].srv;
            |srv.execs| == |With(srv, TakenByReply)| + |With(srv, CanceledByClient)|
                           + |With(srv, ClearedByClose)| + |srv.active|
  {
    var srv := run[i].srv;
    assert Booked(srv) by {
      RunInv(run, i);
      InvMeansBooked(run[i].client.h, srv);
    }
    DecidedBySort(srv);
    OpenIsActive(srv);
    assert srv.execs.Keys == (srv.execs.Keys - srv.fates.Keys) + srv.fates.Keys;
  }
}
