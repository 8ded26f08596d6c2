/** Giving up takes effect: the Cancel message of an abandoned request follows the request on its connection, and once
    the server has read it no execution of that request is active any more. */
module Cancellation {
  import opened Options
  import opened RpcMessage
  import opened ServerReply
  import opened EndToEnd
  import C = ClientModel
  import CI = ClientInvariant
  import R = CancellationRegistry

  // ---------------------------------------------------- the client sends it

  /** Message `j` cancels `id`, whose request came before. */
  ghost predicate CancelsAt(msgs: seq<C.Msg>, id: Id, j: nat) {
    j < |msgs| && msgs[j] == C.MCancel(id) && CI.Requests(msgs[..j], id) > 0
  }

  ghost predicate CancelBehind(msgs: seq<C.Msg>, id: Id) {
    exists j: nat :: CancelsAt(msgs, id, j)
  }

  predicate SentOnCurrent(s: C.State, id: Id) {
    s.conn.Some? && id in s.h.ledger && s.conn.value in s.h.ledger[id].sentOn
  }

  /** An abandoned request of the living connection has its Cancel behind it. */
  ghost predicate Followed(s: C.State, id: Id) {
    s.up && id in s.ignored && SentOnCurrent(s, id) ==> CancelBehind(C.Sent(s.h, s.conn.value), id)
  }

  lemma CancelBehindGrows(msgs: seq<C.Msg>, more: seq<C.Msg>, id: Id)
    requires CancelBehind(msgs, id) && msgs <= more
    ensures CancelBehind(more, id)
  {
    var j: nat :| CancelsAt(msgs, id, j);
    assert more[..j] == msgs[..j];
    assert CancelsAt(more, id, j);
  }

  /** Nothing new is abandoned under `id`, and the connection is the same with a longer log, or not usable any more. */
  ghost predicate Calm(s: C.State, s': C.State, id: Id) {
    s'.up ==>
      && s.up && s'.conn == s.conn && (s.conn.Some? ==> C.Sent(s.h, s.conn.value) <= C.Sent(s'.h, s.conn.value))
      && (id in s'.ignored ==> id in s.ignored && (SentOnCurrent(s', id) ==> SentOnCurrent(s, id)))
  }

  lemma CalmKeeps(s: C.State, s': C.State, id: Id)
    requires Followed(s, id) && Calm(s, s', id)
    ensures Followed(s', id)
  {
    if s'.up && id in s'.ignored && SentOnCurrent(s', id) {
      CancelBehindGrows(C.Sent(s.h, s.conn.value), C.Sent(s'.h, s.conn.value), id);
    }
  }

  /** A request is abandoned: its Cancel goes out behind it. */
  lemma AbandonFollows(s: C.State, id: Id, now: nat, code: u16, notice: C.Notice)
    requires id in s.pending && CI.OutInv(s.h)
    ensures Followed(C.AbandonStep(s, id, now, code, notice), id)
  {
    if s.up && SentOnCurrent(s, id) {
      var c := s.conn.value;
      var msgs := C.Sent(s.h, c);
      var s' := C.AbandonStep(s, id, now, code, notice);
      assert CI.OutOk(s.h, c, id);
      assert C.Sent(s'.h, c) == msgs + [C.MCancel(id)];
      assert (msgs + [C.MCancel(id)])[..|msgs|] == msgs;
      assert CancelsAt(C.Sent(s'.h, c), id, |msgs|);
    }
  }

  lemma GiveUp(s: C.State, timers: set<C.Timer>, j: Id, now: nat, code: u16, notice: C.Notice, id: Id)
    requires j in s.pending && CI.OutInv(s.h) && Followed(s, id)
    ensures Followed(C.AbandonStep(s.(timers := timers), j, now, code, notice), id)
  {
    var s1 := s.(timers := timers);
    if j == id {
      AbandonFollows(s1, id, now, code, notice);
    } else {
      CalmKeeps(s1, C.AbandonStep(s1, j, now, code, notice), id);
    }
  }

  lemma CalmDisconnect(s: C.State, id: Id)
    ensures Calm(s, C.DisconnectStep(s), id)
  {}

  lemma FollowedTimer(s: C.State, timer: C.Timer, now: nat, id: Id)
    requires CI.OutInv(s.h) && Followed(s, id)
    ensures Followed(C.TimerStep(s, timer, now), id)
  {
    var s1 := s.(timers := s.timers - {timer});
    match timer.kind
    case RequestTimer =>
      if timer.id in s.pending && s.pending[timer.id].phase == C.WaitingResponse {
        GiveUp(s, s.timers - {timer}, timer.id, now, REQUEST_TIMEOUT, C.TimedOut, id);
      }
    case ReconnectTimer =>
      CalmKeeps(s1, C.TimerStep(s, timer, now), id);
  }

  lemma CalmMessage(s: C.State, answer: Outcome<Response>, id: Id)
    ensures Calm(s, C.MessageStep(s, answer), id)
  {}

  /** A new connection has carried nothing yet. */
  lemma FollowedUp(s: C.State, id: Id)
    requires CI.Good(s, id)
    ensures Followed(C.UpStep(s), id)
  {
    assert !SentOnCurrent(C.UpStep(s), id);
  }

  lemma FollowedResend(s: C.State, j: Id, id: Id)
    requires CI.IgnoredOk(s, id) && Followed(s, id) && C.ResendEnabled(s, j)
    ensures Followed(C.ResendNextStep(s, j), id)
  {
    var c := s.stack.top.conn;
    var s1 := s.(stack := C.Push(C.Resend(c, s.stack.top.ids - {j}), s.stack.below));
    CalmKeeps(s1, C.ResendNextStep(s, j), id);
  }

  lemma FollowedUser(s: C.State, u: C.UserEvent, id: Id)
    requires CI.Good(s, id) && CI.OutInv(s.h) && Followed(s, id) && C.UserEnabled(s, u)
    ensures Followed(C.UserNext(s, u), id)
  {
    match u
    case StartCall(j) =>
      CalmKeeps(s, C.StartCallStep(s, j), id);
    case Cancel(j, now) =>
      if j in s.pending {
        GiveUp(s, C.WithoutTimer(s.timers, s.pending[j].timerId), j, now, REQUEST_CANCELED, C.Canceled, id);
      }
    case Disconnect =>
      CalmDisconnect(s, id);
      CalmKeeps(s, C.DisconnectStep(s), id);
    case _ => CalmKeeps(s, C.UserNext(s, u), id);
  }

  lemma FollowedLoop(s: C.State, l: C.LoopEvent, id: Id)
    requires CI.Good(s, id) && CI.OutInv(s.h) && Followed(s, id) && C.LoopEnabled(s, l)
    ensures Followed(C.LoopNext(s, l), id)
  {
    match l
    case Up => FollowedUp(s, id);
    case Message(answer) =>
      CalmMessage(s, answer, id);
      CalmKeeps(s, C.MessageStep(s, answer), id);
    case TimerFires(timer, now) => FollowedTimer(s, timer, now, id);
    case Sweep(now) => CalmKeeps(s, C.SweepStep(s, now), id);
    case _ =>
  }

  lemma FollowedEvent(s: C.State, e: C.Event, id: Id)
    requires CI.Good(s, id) && CI.OutInv(s.h) && Followed(s, id) && C.Enabled(s, e)
    ensures Followed(C.Next(s, e), id)
  {
    match e
    case User(u) => FollowedUser(s, u, id);
    case Loop(l) => FollowedLoop(s, l, id);
    case Inside(ResendNext(j)) => FollowedResend(s, j, id);
    case Inside(f) => CalmKeeps(s, C.FrameNext(s, f), id);
  }

  // --------------------------------------------------- the server obeys it

  /** A Cancel that the server has read behind its request leaves no active token. */
  ghost predicate Obeyed(h: C.History, srv: Server, c: Conn, id: Id, j: nat) {
    c in srv.read && j < srv.read[c] <= |C.Sent(h, c)| && CancelsAt(C.Sent(h, c), id, j) ==> R.Key(c, id) !in srv.active
  }

  /** Anything active came in a message that the server does not find too large, so neither is a Cancel. */
  ghost predicate RoomForCancel(srv: Server) {
    srv.active.Keys != {} ==> srv.cfg.maxSize >= 11
  }

  ghost predicate ActivatesOnly(srv: Server, srv': Server, k: R.Key) {
    srv'.active.Keys <= srv.active.Keys + {k} && srv'.read == srv.read && srv'.cfg == srv.cfg
  }

  lemma AnsweredActivates(srv: Server, c: Conn, a: Answer, ok: bool, k: R.Key)
    ensures ActivatesOnly(srv, Answered(srv, c, a, ok), k)
  {}

  lemma AsyncActivates(srv: Server, c: Conn, id: Id, ok: bool)
    ensures ActivatesOnly(srv, AsyncStep(srv, c, id, ok), R.Key(c, id))
  {
    var key := R.Key(c, id);
    if R.StatusOf(srv.active.Keys, srv.cfg.limits, key) == R.Registered {
      assert AsyncStep(srv, c, id, ok).active == srv.active[key := srv.nextExec];
    } else {
      AnsweredActivates(srv, c, Answer(id, LimitReached, None), ok, key);
    }
  }

  lemma RequestActivates(srv: Server, c: Conn, r: Request, outcome: HandlerOutcome, ok: bool)
    ensures ActivatesOnly(srv, RequestStep(srv, c, r, outcome, ok), R.Key(c, r.id))
  {
    AnsweredActivates(srv, c, Answer(r.id, Handler(outcome), None), ok, R.Key(c, r.id));
    AsyncActivates(srv, c, r.id, ok);
    AnsweredActivates(srv, c, Answer(r.id, MethodNotFound, None), ok, R.Key(c, r.id));
  }

  lemma ObeyedRequest(
      h: C.History, srv: Server, c: Conn, r: Request, outcome: HandlerOutcome, ok: bool, d: Conn, id: Id, j: nat)
    requires CI.OutInv(h) && c in srv.read && srv.read[c] < |C.Sent(h, c)| && C.Sent(h, c)[srv.read[c]] == C.MRequest(r)
    requires Obeyed(h, srv, d, id, j)
    ensures Obeyed(h, RequestStep(ReadOne(srv, c), c, r, outcome, ok), d, id, j)
  {
    RequestActivates(ReadOne(srv, c), c, r, outcome, ok);
    NextIsUnseen(h, srv, c);
    var msgs := C.Sent(h, c);
    if d == c && id == r.id && j < srv.read[c] {
      assert msgs[..srv.read[c]][..j] == msgs[..j];
      RequestsPrefix(msgs[..srv.read[c]], j, id);
    }
  }

  lemma ObeyedCancel(
      h: C.History, srv: Server, c: Conn, x: Id, outcome: HandlerOutcome, ok: bool, d: Conn, id: Id, j: nat)
    requires c in srv.read && srv.read[c] < |C.Sent(h, c)| && C.Sent(h, c)[srv.read[c]] == C.MCancel(x)
    requires Obeyed(h, srv, d, id, j) && RoomForCancel(srv)
    ensures Obeyed(h, RecvStep(srv, c, C.MCancel(x), outcome, ok), d, id, j)
  {}

  lemma ObeyedRecv(h: C.History, srv: Server, c: Conn, outcome: HandlerOutcome, ok: bool, d: Conn, id: Id, j: nat)
    requires CI.OutInv(h) && c in srv.read && srv.read[c] < |C.Sent(h, c)|
    requires Obeyed(h, srv, d, id, j) && RoomForCancel(srv)
    ensures Obeyed(h, RecvStep(srv, c, C.Sent(h, c)[srv.read[c]], outcome, ok), d, id, j)
  {
    match C.Sent(h, c)[srv.read[c]]
    case MRequest(r) => ObeyedRequest(h, srv, c, r, outcome, ok, d, id, j);
    case MCancel(x) => ObeyedCancel(h, srv, c, x, outcome, ok, d, id, j);
  }

  lemma RoomRecv(srv: Server, c: Conn, m: C.Msg, outcome: HandlerOutcome, ok: bool)
    requires RoomForCancel(srv) && c in srv.read
    ensures RoomForCancel(RecvStep(srv, c, m, outcome, ok))
  {
    if m.MRequest? {
      RequestActivates(ReadOne(srv, c), c, m.request, outcome, ok);
    }
  }

  lemma PostedOnlyRemoves(srv: Server, e: Exec, ok: bool)
    requires e in srv.posted && e in srv.execs
    ensures var srv' := RunPostedStep(srv, e, ok);
            srv'.active.Keys <= srv.active.Keys && srv'.read == srv.read && srv'.cfg == srv.cfg
  {}

  /** Outside of `Recv` nothing becomes active. */
  lemma OthersOnlyRemove(s: Sys, v: ServerEvent)
    requires ServerEnabled(s, v) && !v.Recv?
    ensures var srv' := ServerNext(s, v);
            srv'.active.Keys <= s.srv.active.Keys && srv'.read == s.srv.read && srv'.cfg == s.srv.cfg
  {
    if v.RunPosted? {
      PostedOnlyRemoves(s.srv, v.exec, v.ok);
    }
  }

  // ------------------------------------------------------ the whole system

  ghost predicate AllObeyed(s: Sys) {
    && RoomForCancel(s.srv)
    && (forall id :: Followed(s.client, id))
    && (forall c, id, j: nat :: Obeyed(s.client.h, s.srv, c, id, j))
  }

  lemma ServerObeys(s: Sys, v: ServerEvent)
    requires CI.OutInv(s.client.h) && AllObeyed(s) && ServerEnabled(s, v)
    ensures AllObeyed(s.(srv := ServerNext(s, v)))
  {
    var h, srv' := s.client.h, ServerNext(s, v);
    if v.Recv? {
      RoomRecv(s.srv, v.conn, C.Sent(h, v.conn)[s.srv.read[v.conn]], v.outcome, v.ok);
    } else {
      OthersOnlyRemove(s, v);
    }
    forall c, id, j: nat
      ensures Obeyed(h, srv', c, id, j)
    {
      assert Obeyed(h, s.srv, c, id, j);
      if v.Recv? {
        ObeyedRecv(h, s.srv, v.conn, v.outcome, v.ok, c, id, j);
      }
    }
  }

  lemma ObeyedGrows(h: C.History, h': C.History, srv: Server, c: Conn, id: Id, j: nat)
    requires ConnOk(h, srv, c) && Longer(h, h', c) && Obeyed(h, srv, c, id, j)
    ensures Obeyed(h', srv, c, id, j)
  {
    if c in srv.read && j < srv.read[c] {
      assert C.Sent(h', c)[..j] == C.Sent(h, c)[..j];
    }
  }

  lemma ClientObeys(s: Sys, s': Sys, e: C.Event)
    requires Inv(s) && AllObeyed(s) && C.Enabled(s.client, e) && s'.client == C.Next(s.client, e) && s'.srv == s.srv
    requires forall c :: Longer(s.client.h, s'.client.h, c)
    ensures AllObeyed(s')
  {
    forall id
      ensures Followed(s'.client, id)
    {
      assert Followed(s.client, id) && CI.Good(s.client, id);
      FollowedEvent(s.client, e, id);
    }
    forall c, id, j: nat
      ensures Obeyed(s'.client.h, s.srv, c, id, j)
    {
      assert ConnOk(s.client.h, s.srv, c) && Longer(s.client.h, s'.client.h, c);
      assert Obeyed(s.client.h, s.srv, c, id, j);
      ObeyedGrows(s.client.h, s'.client.h, s.srv, c, id, j);
    }
  }

  lemma EstablishObeys(s: Sys)
    requires Inv(s) && AllObeyed(s) && Enabled(s, Establish)
    ensures AllObeyed(Next(s, Establish))
  {
    var s' := Next(s, Establish);
    forall id
      ensures Followed(s'.client, id)
    {
      assert CI.Good(s.client, id);
      FollowedUp(s.client, id);
    }
    forall c, id, j: nat
      ensures Obeyed(s'.client.h, s'.srv, c, id, j)
    {
      assert Obeyed(s.client.h, s.srv, c, id, j);
    }
  }

  lemma StepObeys(s: Sys, s': Sys)
    requires Inv(s) && AllObeyed(s) && Step(s, s')
    ensures AllObeyed(s')
  {
    var e :| Enabled(s, e) && s' == Next(s, e);
    match e
    case ClientDoes(ce) =>
      assert OnKnownConn(s.client) by {
        if s.client.conn.Some? {
          assert ConnOk(s.client.h, s.srv, s.client.conn.value);
        }
      }
      QuietEvent(s.client, ce);
      ClientObeys(s, s', ce);
    case Establish => EstablishObeys(s);
    case Deliver(answer) =>
      MessageSendsNothing(s.client, answer);
      ClientObeys(s, s', C.Loop(C.Message(answer)));
    case ServerDoes(v) => ServerObeys(s, v);
  }

  lemma {:induction false} RunObeys(run: seq<Sys>, i: nat)
    requires IsRun(run) && i < |run|
    ensures AllObeyed(run[i])
  {
    if i == 0 {
      assert forall id :: Followed(run[0].client, id);
      assert forall c, id, j: nat :: Obeyed(run[0].client.h, run[0].srv, c, id, j);
    } else {
      RunObeys(run, i - 1);
      RunInv(run, i - 1);
      assert StepAt(run, i - 1);
      StepObeys(run[i - 1], run[i]);
    }
  }

  /** In every run: when the client has given up on a request it sent on the living connection, by `cancel` or by
      timeout, the Cancel is behind the request on that connection; and once the server has read what was sent, the
      request is not active there any more, so its execution has met its fate. */
  lemma CancellationTakesEffect(run: seq<Sys>, i: nat, id: Id)
    requires IsRun(run) && i < |run| && run[i].client.up && run[i].client.conn.Some? && id in run[i].client.ignored
    requires CI.Requests(C.Sent(run[i].client.h, run[i].client.conn.value), id) > 0
    ensures var s, c := run[i], run[i].client.conn.value;
            && CancelBehind(C.Sent(s.client.h, c), id)
            && (c in s.srv.read && s.srv.read[c] == |C.Sent(s.client.h, c)| ==>
                  && R.Key(c, id) !in s.srv.active
                  && forall x | x in s.srv.execs && s.srv.execs[x].key == R.Key(c, id) :: x in s.srv.fates)
  {
    RunObeys(run, i);
    RunInv(run, i);
    var s, c := run[i], run[i].client.conn.value;
    var msgs := C.Sent(s.client.h, c);
    assert CI.OutOk(s.client.h, c, id);
    assert Followed(s.client, id);
    var j: nat :| CancelsAt(msgs, id, j);
    assert Obeyed(s.client.h, s.srv, c, id, j);
    forall x | x in s.srv.execs && s.srv.execs[x].key == R.Key(c, id) && R.Key(c, id) !in s.srv.active
      ensures x in s.srv.fates
    {
      assert ExecOk(s.client.h, s.srv, x);
    }
  }
}
