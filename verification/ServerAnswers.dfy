/** What kind of answer a request gets: decided by the method it names, in every interleaving. */
module ServerAnswers {
  import opened Options
  import opened RpcMessage
  import opened ServerReply
  import opened EndToEnd
  import C = ClientModel
  import CI = ClientInvariant
  import R = CancellationRegistry

  predicate IsSync(cfg: ServerConfig, r: Request) {
    (r.service, r.methodName) in cfg.sync
  }

  predicate IsAsync(cfg: ServerConfig, r: Request) {
    (r.service, r.methodName) in cfg.async && !IsSync(cfg, r)
  }

  /** A synchronous method is answered by its handler; an asynchronous one by a reply of its own execution, or by the
      notice that a limit is reached; an unknown one by "service or method not exist". */
  predicate Fits(cfg: ServerConfig, r: Request, a: Answer) {
    && a.id == r.id
    && if IsSync(cfg, r) then a.kind.Handler? && a.cause.None?
       else if IsAsync(cfg, r) then (a.kind.Handler? && a.cause.Some?) || (a.kind.LimitReached? && a.cause.None?)
       else a.kind.MethodNotFound? && a.cause.None?
  }

  /** The `j`-th message the server has read on connection `c` is this request, and was not above the size limit. */
  ghost predicate Asks(h: C.History, srv: Server, c: Conn, j: nat, r: Request) {
    && c in srv.read && j < srv.read[c] <= |C.Sent(h, c)| && C.Sent(h, c)[j] == C.MRequest(r)
    && WireLen(C.MRequest(r)) <= srv.cfg.maxSize
  }

  ghost predicate AnswerFits(h: C.History, srv: Server, c: Conn, k: nat) {
    c in srv.sent && k < |srv.sent[c]| ==>
      exists j: nat, r :: Asks(h, srv, c, j, r) && Fits(srv.cfg, r, srv.sent[c][k])
  }

  ghost predicate ExecFits(h: C.History, srv: Server, x: Exec) {
    x in srv.execs ==>
      var key := srv.execs[x].key;
      exists j: nat, r :: Asks(h, srv, key.conn, j, r) && r.id == key.id && IsAsync(srv.cfg, r)
  }

  ghost predicate AllFit(h: C.History, srv: Server) {
    (forall c, k: nat :: AnswerFits(h, srv, c, k)) && (forall x :: ExecFits(h, srv, x))
  }

  // --------------------------------------------------- what was right stays right

  /** At least as much has been sent and read on the connection. */
  ghost predicate Later(h: C.History, srv: Server, h': C.History, srv': Server, c: Conn) {
    && C.Sent(h, c) <= C.Sent(h', c)
    && (c in srv.read ==> c in srv'.read && srv.read[c] <= srv'.read[c] <= |C.Sent(h', c)|)
  }

  ghost predicate Known(srv: Server, srv': Server, c: Conn, k: nat) {
    c in srv'.sent && k < |srv'.sent[c]| ==>
      c in srv.sent && k < |srv.sent[c]| && srv'.sent[c][k] == srv.sent[c][k]
  }

  ghost predicate KnownExec(srv: Server, srv': Server, x: Exec) {
    x in srv'.execs ==> x in srv.execs && srv'.execs[x].key == srv.execs[x].key
  }

  lemma FitsLater(h: C.History, srv: Server, h': C.History, srv': Server)
    requires AllFit(h, srv) && srv'.cfg == srv.cfg && forall c :: Later(h, srv, h', srv', c)
    requires forall c, k: nat :: Known(srv, srv', c, k) || AnswerFits(h', srv', c, k)
    requires forall x :: KnownExec(srv, srv', x) || ExecFits(h', srv', x)
    ensures AllFit(h', srv')
  {
    forall c, k: nat
      ensures AnswerFits(h', srv', c, k)
    {
      assert Later(h, srv, h', srv', c);
      if Known(srv, srv', c, k) && c in srv'.sent && k < |srv'.sent[c]| {
        assert AnswerFits(h, srv, c, k);
        var j: nat, r :| Asks(h, srv, c, j, r) && Fits(srv.cfg, r, srv.sent[c][k]);
        assert Asks(h', srv', c, j, r);
      }
    }
    forall x
      ensures ExecFits(h', srv', x)
    {
      if KnownExec(srv, srv', x) && x in srv'.execs {
        var key := srv.execs[x].key;
        assert ExecFits(h, srv, x) && Later(h, srv, h', srv', key.conn);
        var j: nat, r :| Asks(h, srv, key.conn, j, r) && r.id == key.id && IsAsync(srv.cfg, r);
        assert Asks(h', srv', key.conn, j, r);
      }
    }
  }

  // --------------------------------------------------------- the server goes on

  /** The server has read one more message, and every answer and execution that is new fits it. */
  ghost predicate ReadsFitting(h: C.History, srv: Server, srv': Server, c: Conn)
    requires c in srv.read
  {
    && srv'.cfg == srv.cfg && srv'.read == srv.read[c := srv.read[c] + 1]
    && (forall d, k: nat :: Known(srv, srv', d, k) || AnswerFits(h, srv', d, k))
    && (forall x :: KnownExec(srv, srv', x) || ExecFits(h, srv', x))
  }

  lemma AnswerIsFitting(h: C.History, srv: Server, c: Conn, r: Request, a: Answer, ok: bool)
    requires c in srv.read && srv.read[c] < |C.Sent(h, c)| && C.Sent(h, c)[srv.read[c]] == C.MRequest(r)
    requires Fits(srv.cfg, r, a) && WireLen(C.MRequest(r)) <= srv.cfg.maxSize
    ensures ReadsFitting(h, srv, Answered(ReadOne(srv, c), c, a, ok), c)
  {
    var srv' := Answered(ReadOne(srv, c), c, a, ok);
    assert Asks(h, srv', c, srv.read[c], r);
    forall d, k: nat
      ensures Known(srv, srv', d, k) || AnswerFits(h, srv', d, k)
    {
      if !Known(srv, srv', d, k) {
        assert srv'.sent[d][k] == a;
      }
    }
  }

  lemma SameIsFitting(h: C.History, srv: Server, srv': Server, c: Conn)
    requires c in srv.read && srv'.cfg == srv.cfg && srv'.read == srv.read[c := srv.read[c] + 1]
    requires srv'.sent == srv.sent && srv'.execs == srv.execs
    ensures ReadsFitting(h, srv, srv', c)
  {
    assert forall d, k: nat :: Known(srv, srv', d, k);
    assert forall x :: KnownExec(srv, srv', x);
  }

  lemma EnrolledIsFitting(h: C.History, srv: Server, c: Conn, r: Request)
    requires c in srv.read && srv.read[c] < |C.Sent(h, c)| && C.Sent(h, c)[srv.read[c]] == C.MRequest(r)
    requires IsAsync(srv.cfg, r) && WireLen(C.MRequest(r)) <= srv.cfg.maxSize
    ensures ReadsFitting(h, srv, Enrolled(ReadOne(srv, c), R.Key(c, r.id)), c)
  {
    var srv' := Enrolled(ReadOne(srv, c), R.Key(c, r.id));
    assert Asks(h, srv', c, srv.read[c], r);
    assert forall d, k: nat :: Known(srv, srv', d, k);
    forall x
      ensures KnownExec(srv, srv', x) || ExecFits(h, srv', x)
    {
      if x == srv.nextExec {
        assert ExecFits(h, srv', x);
      }
    }
  }

  lemma AsyncIsFitting(h: C.History, srv: Server, c: Conn, r: Request, ok: bool)
    requires c in srv.read && srv.read[c] < |C.Sent(h, c)| && C.Sent(h, c)[srv.read[c]] == C.MRequest(r)
    requires IsAsync(srv.cfg, r) && WireLen(C.MRequest(r)) <= srv.cfg.maxSize
    ensures ReadsFitting(h, srv, AsyncStep(ReadOne(srv, c), c, r.id, ok), c)
  {
    match R.StatusOf(srv.active.Keys, srv.cfg.limits, R.Key(c, r.id))
    case DuplicateRequestId => SameIsFitting(h, srv, AsyncStep(ReadOne(srv, c), c, r.id, ok), c);
    case Registered => EnrolledIsFitting(h, srv, c, r);
    case _ => AnswerIsFitting(h, srv, c, r, Answer(r.id, LimitReached, None), ok);
  }

  lemma RequestIsFitting(h: C.History, srv: Server, c: Conn, r: Request, outcome: HandlerOutcome, ok: bool)
    requires c in srv.read && srv.read[c] < |C.Sent(h, c)| && C.Sent(h, c)[srv.read[c]] == C.MRequest(r)
    requires WireLen(C.MRequest(r)) <= srv.cfg.maxSize
    ensures ReadsFitting(h, srv, RequestStep(ReadOne(srv, c), c, r, outcome, ok), c)
  {
    if IsSync(srv.cfg, r) {
      AnswerIsFitting(h, srv, c, r, Answer(r.id, Handler(outcome), None), ok);
    } else if IsAsync(srv.cfg, r) {
      AsyncIsFitting(h, srv, c, r, ok);
    } else {
      AnswerIsFitting(h, srv, c, r, Answer(r.id, MethodNotFound, None), ok);
    }
  }

  lemma RecvIsFitting(h: C.History, srv: Server, c: Conn, outcome: HandlerOutcome, ok: bool)
    requires c in srv.read && srv.read[c] < |C.Sent(h, c)|
    ensures ReadsFitting(h, srv, RecvStep(srv, c, C.Sent(h, c)[srv.read[c]], outcome, ok), c)
  {
    var m := C.Sent(h, c)[srv.read[c]];
    if m.MCancel? || WireLen(m) > srv.cfg.maxSize {
      SameIsFitting(h, srv, RecvStep(srv, c, m, outcome, ok), c);
    } else {
      RequestIsFitting(h, srv, c, m.request, outcome, ok);
    }
  }

  lemma RecvFits(h: C.History, srv: Server, c: Conn, outcome: HandlerOutcome, ok: bool)
    requires AllFit(h, srv) && (forall d :: ConnOk(h, srv, d)) && c in srv.read && srv.read[c] < |C.Sent(h, c)|
    ensures AllFit(h, RecvStep(srv, c, C.Sent(h, c)[srv.read[c]], outcome, ok))
  {
    var srv' := RecvStep(srv, c, C.Sent(h, c)[srv.read[c]], outcome, ok);
    RecvIsFitting(h, srv, c, outcome, ok);
    forall d
      ensures Later(h, srv, h, srv', d)
    {
      assert ConnOk(h, srv, d);
    }
    FitsLater(h, srv, h, srv');
  }

  /** Steps that read nothing and answer nothing new. */
  lemma QuietFits(h: C.History, srv: Server, h': C.History, srv': Server)
    requires AllFit(h, srv) && srv'.cfg == srv.cfg && forall c :: Later(h, srv, h', srv', c)
    requires (forall c, k: nat :: Known(srv, srv', c, k)) && forall x :: KnownExec(srv, srv', x)
    ensures AllFit(h', srv')
  {
    FitsLater(h, srv, h', srv');
  }

  lemma PostedFits(h: C.History, srv: Server, e: Exec, ok: bool)
    requires AllFit(h, srv) && (forall d :: ConnOk(h, srv, d)) && e in srv.posted && e in srv.execs
    ensures AllFit(h, RunPostedStep(srv, e, ok))
  {
    var srv' := RunPostedStep(srv, e, ok);
    var key := srv.execs[e].key;
    assert ExecFits(h, srv, e);
    var j: nat, r :| Asks(h, srv, key.conn, j, r) && r.id == key.id && IsAsync(srv.cfg, r);
    forall d
      ensures Later(h, srv, h, srv', d)
    {
      assert ConnOk(h, srv, d);
    }
    assert Asks(h, srv', key.conn, j, r);
    forall d, k: nat
      ensures Known(srv, srv', d, k) || AnswerFits(h, srv', d, k)
    {
      if !Known(srv, srv', d, k) {
        assert d == key.conn && srv'.sent[d][k] == Answer(key.id, Handler(srv.posted[e]), Some(e));
      }
    }
    assert forall x :: KnownExec(srv, srv', x);
    FitsLater(h, srv, h, srv');
  }

  lemma ServerFits(s: Sys, v: ServerEvent)
    requires Inv(s) && AllFit(s.client.h, s.srv) && ServerEnabled(s, v)
    ensures AllFit(s.client.h, ServerNext(s, v))
  {
    var h, srv, srv' := s.client.h, s.srv, ServerNext(s, v);
    match v {
      case Recv(c, outcome, ok) => RecvFits(h, srv, c, outcome, ok);
      case RunPosted(e, ok) => PostedFits(h, srv, e, ok);
      case _ =>
        forall d
          ensures Later(h, srv, h, srv', d)
        {
          assert ConnOk(h, srv, d);
        }
        QuietFits(h, srv, h, srv');
    }
  }

  // --------------------------------------------------------- the client goes on

  lemma ClientFits(s: Sys, client': C.State)
    requires Inv(s) && AllFit(s.client.h, s.srv) && forall c :: Longer(s.client.h, client'.h, c)
    ensures AllFit(client'.h, s.srv)
  {
    forall c
      ensures Later(s.client.h, s.srv, client'.h, s.srv, c)
    {
      assert ConnOk(s.client.h, s.srv, c) && Longer(s.client.h, client'.h, c);
    }
    QuietFits(s.client.h, s.srv, client'.h, s.srv);
  }

  lemma EstablishFits(s: Sys)
    requires Inv(s) && AllFit(s.client.h, s.srv)
    ensures AllFit(C.UpStep(s.client).h, Accepted(s.srv, s.client.h.nextConn))
  {
    var h, h', srv' := s.client.h, C.UpStep(s.client).h, Accepted(s.srv, s.client.h.nextConn);
    forall c
      ensures Later(h, s.srv, h', srv', c)
    {
      assert ConnOk(h, s.srv, c);
    }
    assert ConnOk(h, s.srv, h.nextConn);
    QuietFits(h, s.srv, h', srv');
  }

  lemma InitFits(s: Sys)
    requires Init(s)
    ensures AllFit(s.client.h, s.srv)
  {}

  lemma StepFits(s: Sys, s': Sys)
    requires Inv(s) && AllFit(s.client.h, s.srv) && Step(s, s')
    ensures AllFit(s'.client.h, s'.srv)
  {
    var e :| Enabled(s, e) && s' == Next(s, e);
    match e
    case ClientDoes(ce) =>
      assert OnKnownConn(s.client) by {
        if s.client.conn.Some? {
          assert ConnOk(s.client.h, s.srv, s.client.conn.value);
        }
      }
      QuietEvent(s.client, ce);
      ClientFits(s, s'.client);
    case Establish => EstablishFits(s);
    case Deliver(answer) =>
      MessageSendsNothing(s.client, answer);
      assert forall c :: Longer(s.client.h, s'.client.h, c);
      ClientFits(s, s'.client);
    case ServerDoes(v) => ServerFits(s, v);
  }

  lemma {:induction false} RunFits(run: seq<Sys>, i: nat)
    requires IsRun(run) && i < |run|
    ensures AllFit(run[i].client.h, run[i].srv)
  {
    if i == 0 {
      InitFits(run[0]);
    } else {
      RunFits(run, i - 1);
      RunInv(run, i - 1);
      assert StepAt(run, i - 1);
      StepFits(run[i - 1], run[i]);
    }
  }

  // ------------------------------------------------------------- main results

  lemma SameIdSameRequest(h: C.History, c: Conn, j: nat, k: nat)
    requires CI.OutInv(h) && j < |C.Sent(h, c)| && k < |C.Sent(h, c)|
    requires C.Sent(h, c)[j].MRequest? && C.Sent(h, c)[k].MRequest?
    requires C.Sent(h, c)[j].request.id == C.Sent(h, c)[k].request.id
    ensures C.Sent(h, c)[j] == C.Sent(h, c)[k]
  {
    assert CI.CopiesOk(h, c);
    assert CI.CopyOk(h, C.Sent(h, c)[j]) && CI.CopyOk(h, C.Sent(h, c)[k]);
  }

  /** In every run every answer fits the request it answers: what the client sent under this id on this connection names
      the method, and the method decides who answers it and how. */
  lemma AnswersFitTheirRequests(run: seq<Sys>, i: nat, c: Conn, k: nat, j: nat)
    requires IsRun(run) && i < |run| && c in run[i].srv.sent && k < |run[i].srv.sent[c]|
    requires j < |C.Sent(run[i].client.h, c)| && C.Sent(run[i].client.h, c)[j].MRequest?
    requires C.Sent(run[i].client.h, c)[j].request.id == run[i].srv.sent[c][k].id
    ensures Fits(run[i].srv.cfg, C.Sent(run[i].client.h, c)[j].request, run[i].srv.sent[c][k])
  {
    RunFits(run, i);
    RunInv(run, i);
    var h, srv := run[i].client.h, run[i].srv;
    assert AnswerFits(h, srv, c, k);
    var l: nat, r :| Asks(h, srv, c, l, r) && Fits(srv.cfg, r, srv.sent[c][k]);
    SameIdSameRequest(h, c, j, l);
  }

  /** In every run handlers run only for requests the client sent to an asynchronous method, on their own connection. */
  lemma ExecutionsWereAskedFor(run: seq<Sys>, i: nat, x: Exec)
    requires IsRun(run) && i < |run| && x in run[i].srv.execs
    ensures var key := run[i].srv.execs[x].key;
            exists j: nat ::
              && j < |C.Sent(run[i].client.h, key.conn)| && C.Sent(run[i].client.h, key.conn)[j].MRequest?
              && C.Sent(run[i].client.h, key.conn)[j].request.id == key.id
              && IsAsync(run[i].srv.cfg, C.Sent(run[i].client.h, key.conn)[j].request)
  {
    RunFits(run, i);
    var h, srv := run[i].client.h, run[i].srv;
    assert ExecFits(h, srv, x);
    var j: nat, r :| Asks(h, srv, srv.execs[x].key.conn, j, r) && r.id == srv.execs[x].key.id && IsAsync(srv.cfg, r);
    assert C.Sent(h, srv.execs[x].key.conn)[j].request == r;
  }
}
