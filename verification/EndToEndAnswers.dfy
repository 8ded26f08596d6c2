/** From the handler to the callback: what a user callback is told really is what the server answered. */
module EndToEndAnswers {
  import opened Options
  import opened RpcMessage
  import opened ServerReply
  import opened EndToEnd
  import opened EndToEndProperties
  import C = ClientModel
  import CI = ClientInvariant
  import R = CancellationRegistry

  /** The `k`-th answer on connection `c` is what the callback is told. */
  ghost predicate IsAnswer(srv: Server, c: Conn, k: nat, d: C.Delivery) {
    && c in srv.sent && k < |srv.sent[c]| && srv.sent[c][k].id == d.id && d.reply.Received?
    && d.reply.response == Intended(d.id, ResultOf(srv.sent[c][k].kind), srv.cfg.maxSize)
  }

  ghost predicate Genuine(srv: Server, d: C.Delivery) {
    d.reply.Received? ==> exists c: Conn, k: nat :: IsAnswer(srv, c, k, d)
  }

  ghost predicate FrameGenuine(srv: Server, f: C.Frame) {
    f.Callbacks? ==> forall id | id in f.todo :: Genuine(srv, f.todo[id])
  }

  ghost predicate StackGenuine(srv: Server, stack: C.Stack) {
    stack.Push? ==> FrameGenuine(srv, stack.top) && StackGenuine(srv, stack.below)
  }

  ghost predicate FiredGenuine(srv: Server, fired: seq<C.Delivery>) {
    forall i | 0 <= i < |fired| :: Genuine(srv, fired[i])
  }

  ghost predicate AllGenuine(s: Sys) {
    StackGenuine(s.srv, s.client.stack) && FiredGenuine(s.srv, s.client.h.fired)
  }

  // -------------------------------------------------------- the server goes on

  lemma GenuineLater(srv: Server, srv': Server, d: C.Delivery)
    requires SentGrows(srv, srv') && Genuine(srv, d)
    ensures Genuine(srv', d)
  {
    if d.reply.Received? {
      var c: Conn, k: nat :| IsAnswer(srv, c, k, d);
      assert srv'.sent[c][k] == srv.sent[c][k];
      assert IsAnswer(srv', c, k, d);
    }
  }

  lemma {:induction false} StackLater(srv: Server, srv': Server, stack: C.Stack)
    requires SentGrows(srv, srv') && StackGenuine(srv, stack)
    ensures StackGenuine(srv', stack)
  {
    if stack.Push? {
      StackLater(srv, srv', stack.below);
      if stack.top.Callbacks? {
        forall id | id in stack.top.todo
          ensures Genuine(srv', stack.top.todo[id])
        {
          GenuineLater(srv, srv', stack.top.todo[id]);
        }
      }
    }
  }

  lemma AllLater(s: Sys, srv': Server)
    requires AllGenuine(s) && SentGrows(s.srv, srv')
    ensures AllGenuine(s.(srv := srv'))
  {
    StackLater(s.srv, srv', s.client.stack);
    forall i | 0 <= i < |s.client.h.fired|
      ensures Genuine(srv', s.client.h.fired[i])
    {
      GenuineLater(s.srv, srv', s.client.h.fired[i]);
    }
  }

  // -------------------------------------------------------- the client goes on

  predicate OnlyFailures(f: C.Frame) {
    f.Callbacks? ==> forall id | id in f.todo :: f.todo[id].reply.Failed?
  }

  /** At most two frames are added, and none holds a response of the server. */
  predicate AddsFailures(stack: C.Stack, stack': C.Stack) {
    || stack' == stack
    || (stack'.Push? && OnlyFailures(stack'.top)
        && (stack'.below == stack
            || (stack'.below.Push? && OnlyFailures(stack'.below.top) && stack'.below.below == stack)))
  }

  lemma GenuineWithFailures(srv: Server, stack: C.Stack, stack': C.Stack)
    requires StackGenuine(srv, stack) && AddsFailures(stack, stack')
    ensures StackGenuine(srv, stack')
  {
    if stack' != stack && stack'.below != stack {
      assert StackGenuine(srv, stack'.below);
    }
  }

  ghost predicate AddsNoAnswer(s: C.State, s': C.State) {
    AddsFailures(s.stack, s'.stack) && s'.h.fired == s.h.fired
  }

  lemma UserAddsNoAnswer(s: C.State, u: C.UserEvent)
    requires C.UserEnabled(s, u)
    ensures AddsNoAnswer(s, C.UserNext(s, u))
  {}

  lemma LoopAddsNoAnswer(s: C.State, l: C.LoopEvent)
    requires C.LoopEnabled(s, l) && !l.Message?
    ensures AddsNoAnswer(s, C.LoopNext(s, l))
  {}

  lemma GenuineFire(srv: Server, s: C.State, id: C.Id)
    requires C.FireEnabled(s, id) && StackGenuine(srv, s.stack)
    ensures StackGenuine(srv, C.FireStep(s, id).stack) && Genuine(srv, s.stack.top.todo[id])
  {
    var rest := C.Callbacks(s.stack.top.todo - {id}, s.stack.top.ordered);
    assert FrameGenuine(srv, s.stack.top);
    assert FrameGenuine(srv, rest);
    assert StackGenuine(srv, C.Push(rest, s.stack.below));
  }

  lemma GenuineFrame(srv: Server, s: C.State, f: C.FrameEvent)
    requires C.FrameEnabled(s, f) && !f.Fire? && StackGenuine(srv, s.stack)
    ensures StackGenuine(srv, C.FrameNext(s, f).stack) && C.FrameNext(s, f).h.fired == s.h.fired
  {
    match f
    case ResendNext(id) =>
      var stack1 := C.Push(C.Resend(s.stack.top.conn, s.stack.top.ids - {id}), s.stack.below);
      assert StackGenuine(srv, stack1);
      GenuineWithFailures(srv, stack1, C.FrameNext(s, f).stack);
    case Resume => GenuineWithFailures(srv, s.stack.below, C.FrameNext(s, f).stack);
  }

  lemma ClientKeepsGenuine(s: Sys, e: C.Event)
    requires AllGenuine(s) && C.Enabled(s.client, e) && !(e.Loop? && e.l.Message?)
    ensures AllGenuine(s.(client := C.Next(s.client, e)))
  {
    match e
    case User(u) =>
      UserAddsNoAnswer(s.client, u);
      GenuineWithFailures(s.srv, s.client.stack, C.Next(s.client, e).stack);
    case Loop(l) =>
      LoopAddsNoAnswer(s.client, l);
      GenuineWithFailures(s.srv, s.client.stack, C.Next(s.client, e).stack);
    case Inside(f) =>
      if f.Fire? {
        GenuineFire(s.srv, s.client, f.id);
      } else {
        GenuineFrame(s.srv, s.client, f);
      }
  }

  lemma DeliverKeepsGenuine(s: Sys, answer: Outcome<Response>)
    requires AllGenuine(s) && Enabled(s, Deliver(answer))
    ensures AllGenuine(Next(s, Deliver(answer)))
  {
    if answer.Ok? && answer.value.id in s.client.pending {
      var id := answer.value.id;
      var d := C.Delivery(s.client.pending[id].callback, id, C.Received(answer.value));
      assert IsAnswer(s.srv, s.client.conn.value, s.got, d);
      assert FrameGenuine(s.srv, C.Callbacks(map[id := d], false));
    }
  }

  lemma StepKeepsGenuine(s: Sys, s': Sys)
    requires Inv(s) && AllGenuine(s) && Step(s, s')
    ensures AllGenuine(s')
  {
    var e :| Enabled(s, e) && s' == Next(s, e);
    match e
    case ClientDoes(ce) => ClientKeepsGenuine(s, ce);
    case Establish =>
      assert ConnOk(s.client.h, s.srv, s.client.h.nextConn);
      AllLater(s, s'.srv);
      ClientKeepsGenuine(s.(srv := s'.srv), C.Loop(C.Up));
    case Deliver(answer) => DeliverKeepsGenuine(s, answer);
    case ServerDoes(v) =>
      ServerSentGrows(s, v);
      AllLater(s, s'.srv);
  }

  lemma {:induction false} RunGenuine(run: seq<Sys>, i: nat)
    requires IsRun(run) && i < |run|
    ensures AllGenuine(run[i])
  {
    if i > 0 {
      RunGenuine(run, i - 1);
      RunInv(run, i - 1);
      assert StepAt(run, i - 1);
      StepKeepsGenuine(run[i - 1], run[i]);
    }
  }

  // ----------------------------------------------------- the first reply wins

  /** The flag is set by the first reply, and that one is posted. */
  ghost predicate FirstOk(srv: Server, x: Exec) {
    && (x in srv.first <==> x in srv.execs && srv.execs[x].replied)
    && (x in srv.posted ==> x in srv.first && srv.posted[x] == srv.first[x])
  }

  ghost predicate CauseOk(srv: Server, a: Answer) {
    a.cause.Some? ==> a.cause.value in srv.first && a.kind == Handler(srv.first[a.cause.value])
  }

  ghost predicate CausesOk(srv: Server, c: Conn) {
    c in srv.sent ==> forall k: nat | k < |srv.sent[c]| :: CauseOk(srv, srv.sent[c][k])
  }

  ghost predicate FirstInv(srv: Server) {
    (forall x :: FirstOk(srv, x)) && (forall c :: CausesOk(srv, c))
  }

  lemma FirstAnswered(srv: Server, c: Conn, a: Answer, ok: bool)
    requires FirstInv(srv) && CauseOk(srv, a)
    ensures FirstInv(Answered(srv, c, a, ok))
  {
    var srv' := Answered(srv, c, a, ok);
    forall x
      ensures FirstOk(srv', x)
    {
      assert FirstOk(srv, x);
    }
    forall d, k: nat | d in srv'.sent && k < |srv'.sent[d]|
      ensures CauseOk(srv', srv'.sent[d][k])
    {
      assert CausesOk(srv, d);
      if k < |srv.sent[d]| {
        assert CauseOk(srv, srv.sent[d][k]);
      }
    }
    assert forall d :: CausesOk(srv', d);
  }

  /** Steps that leave executions, replies and answers alone, up to a new execution and posted replies that ran. */
  ghost predicate SameReplies(srv: Server, srv': Server) {
    && srv'.first == srv.first && srv'.sent == srv.sent && srv'.posted.Keys <= srv.posted.Keys
    && (forall x | x in srv'.posted :: srv'.posted[x] == srv.posted[x])
    && (forall x | x in srv.execs :: x in srv'.execs && srv'.execs[x] == srv.execs[x])
    && (forall x | x in srv'.execs :: x in srv.execs || !srv'.execs[x].replied)
  }

  lemma FirstSame(srv: Server, srv': Server)
    requires FirstInv(srv) && SameReplies(srv, srv')
    ensures FirstInv(srv')
  {
    forall x
      ensures FirstOk(srv', x)
    {
      assert FirstOk(srv, x);
    }
    forall d, k: nat | d in srv'.sent && k < |srv'.sent[d]|
      ensures CauseOk(srv', srv'.sent[d][k])
    {
      assert CausesOk(srv, d);
      assert CauseOk(srv, srv.sent[d][k]);
    }
    assert forall d :: CausesOk(srv', d);
  }

  lemma AsyncCases(srv: Server, c: Conn, id: Id, ok: bool)
    requires srv.nextExec !in srv.execs
    ensures var srv' := AsyncStep(srv, c, id, ok);
            SameReplies(srv, srv') || srv' == Answered(srv, c, Answer(id, LimitReached, None), ok)
  {
    var status := R.StatusOf(srv.active.Keys, srv.cfg.limits, R.Key(c, id));
    if status == R.Registered || status == R.DuplicateRequestId {
      assert SameReplies(srv, AsyncStep(srv, c, id, ok));
    }
  }

  lemma FirstAsync(srv: Server, c: Conn, id: Id, ok: bool)
    requires FirstInv(srv) && srv.nextExec !in srv.execs
    ensures FirstInv(AsyncStep(srv, c, id, ok))
  {
    var srv' := AsyncStep(srv, c, id, ok);
    AsyncCases(srv, c, id, ok);
    if SameReplies(srv, srv') {
      FirstSame(srv, srv');
    } else {
      FirstAnswered(srv, c, Answer(id, LimitReached, None), ok);
    }
  }

  lemma FirstRequest(srv: Server, c: Conn, r: Request, outcome: HandlerOutcome, ok: bool)
    requires FirstInv(srv) && srv.nextExec !in srv.execs
    ensures FirstInv(RequestStep(srv, c, r, outcome, ok))
  {
    FirstAnswered(srv, c, Answer(r.id, Handler(outcome), None), ok);
    FirstAsync(srv, c, r.id, ok);
    FirstAnswered(srv, c, Answer(r.id, MethodNotFound, None), ok);
  }

  lemma FirstRecv(srv: Server, c: Conn, m: C.Msg, outcome: HandlerOutcome, ok: bool)
    requires FirstInv(srv) && srv.nextExec !in srv.execs && c in srv.read
    ensures FirstInv(RecvStep(srv, c, m, outcome, ok))
  {
    var srv1 := ReadOne(srv, c);
    FirstSame(srv, srv1);
    match m
    case MRequest(r) => FirstRequest(srv1, c, r, outcome, ok);
    case MCancel(id) => FirstSame(srv1, CancelStep(srv1, R.Key(c, id)));
  }

  lemma FirstReply(srv: Server, e: Exec, outcome: HandlerOutcome, alive: bool)
    requires FirstInv(srv) && e in srv.execs
    ensures FirstInv(ReplyStep(srv, e, outcome, alive))
  {
    var srv' := ReplyStep(srv, e, outcome, alive);
    assert FirstOk(srv, e);
    forall x
      ensures FirstOk(srv', x)
    {
      assert FirstOk(srv, x);
    }
    forall d, k: nat | d in srv'.sent && k < |srv'.sent[d]|
      ensures CauseOk(srv', srv'.sent[d][k])
    {
      assert CausesOk(srv, d);
      assert CauseOk(srv, srv.sent[d][k]);
    }
    assert forall d :: CausesOk(srv', d);
  }

  lemma FirstPosted(srv: Server, e: Exec, ok: bool)
    requires FirstInv(srv) && e in srv.posted && e in srv.execs
    ensures FirstInv(RunPostedStep(srv, e, ok))
  {
    var key := srv.execs[e].key;
    var srv1 := Taken(srv.(posted := srv.posted - {e}), key);
    FirstSame(srv, srv1);
    assert FirstOk(srv, e);
    FirstAnswered(srv1, key.conn, Answer(key.id, Handler(srv.posted[e]), Some(e)), ok);
  }

  lemma FirstServer(s: Sys, v: ServerEvent)
    requires Inv(s) && FirstInv(s.srv) && ServerEnabled(s, v)
    ensures FirstInv(ServerNext(s, v))
  {
    match v
    case Recv(c, outcome, ok) =>
      assert ExecOk(s.client.h, s.srv, s.srv.nextExec);
      FirstRecv(s.srv, c, C.Sent(s.client.h, c)[s.srv.read[c]], outcome, ok);
    case Reply(e, outcome, alive) => FirstReply(s.srv, e, outcome, alive);
    case RunPosted(e, ok) => FirstPosted(s.srv, e, ok);
    case DropPosted(e) => FirstSame(s.srv, DropPostedStep(s.srv, e));
    case ServerDown(c) => FirstSame(s.srv, ServerDownStep(s.srv, c));
  }

  lemma FirstEstablish(srv: Server, c: Conn)
    requires FirstInv(srv)
    ensures FirstInv(srv.(read := srv.read[c := 0], sent := srv.sent[c := []]))
  {
    var srv' := srv.(read := srv.read[c := 0], sent := srv.sent[c := []]);
    forall x
      ensures FirstOk(srv', x)
    {
      assert FirstOk(srv, x);
    }
    forall d, k: nat | d in srv'.sent && k < |srv'.sent[d]|
      ensures CauseOk(srv', srv'.sent[d][k])
    {
      assert CausesOk(srv, d);
      assert CauseOk(srv, srv.sent[d][k]);
    }
    assert forall d :: CausesOk(srv', d);
  }

  lemma StepKeepsFirst(s: Sys, s': Sys)
    requires Inv(s) && FirstInv(s.srv) && Step(s, s')
    ensures FirstInv(s'.srv)
  {
    var e :| Enabled(s, e) && s' == Next(s, e);
    match e
    case ClientDoes(_) =>
    case Establish => FirstEstablish(s.srv, s.client.h.nextConn);
    case Deliver(_) =>
    case ServerDoes(v) => FirstServer(s, v);
  }

  lemma {:induction false} RunFirst(run: seq<Sys>, i: nat)
    requires IsRun(run) && i < |run|
    ensures FirstInv(run[i].srv)
  {
    if i == 0 {
      assert forall x :: FirstOk(run[0].srv, x);
      assert forall c :: CausesOk(run[0].srv, c);
    } else {
      RunFirst(run, i - 1);
      RunInv(run, i - 1);
      assert StepAt(run, i - 1);
      StepKeepsFirst(run[i - 1], run[i]);
    }
  }

  /** However often and from whichever threads a handler replies, a response frame due to it carries its first reply,
      and what counts as its first reply never changes. */
  lemma FirstReplyWins(run: seq<Sys>, i: nat, j: nat, c: Conn, k: nat, x: Exec)
    requires IsRun(run) && i <= j < |run| && x in run[i].srv.first
    requires c in run[j].srv.sent && k < |run[j].srv.sent[c]| && run[j].srv.sent[c][k].cause == Some(x)
    ensures run[j].srv.sent[c][k].kind == Handler(run[i].srv.first[x])
  {
    RunFirst(run, j);
    FatesAreFinal(run, i, j, x);
    assert CausesOk(run[j].srv, c);
    assert CauseOk(run[j].srv, run[j].srv.sent[c][k]);
  }

  /** In every run a handler's first reply, made while its connection lives, is posted; and running a posted reply puts
      exactly that first reply on the connection of its request if and only if neither cancel nor close has won the
      race for its token before. */
  lemma PostedReplyIsSentIff(run: seq<Sys>, i: nat, x: Exec, outcome: HandlerOutcome)
    requires IsRun(run) && i < |run| && x in run[i].srv.execs
    ensures var srv, key := run[i].srv, run[i].srv.execs[x].key;
            && key.conn in srv.sent
            && (x !in srv.first ==>
                  x in ReplyStep(srv, x, outcome, true).posted && ReplyStep(srv, x, outcome, true).posted[x] == outcome)
            && (x in srv.posted ==>
                  && x in srv.first
                  && RunPostedStep(srv, x, true).sent
                     == if x in srv.fates then srv.sent
                        else srv.sent[key.conn := srv.sent[key.conn]
                                                  + [Answer(key.id, Handler(srv.first[x]), Some(x))]])
  {
    RunFirst(run, i);
    RunInv(run, i);
    var h, srv, key := run[i].client.h, run[i].srv, run[i].srv.execs[x].key;
    assert FirstOk(srv, x) && ExecOk(h, srv, x) && ConnOk(h, srv, key.conn);
    SingleWinner(run, i, x);
  }

  // ------------------------------------------------- from handler to callback

  /** In every run, whenever a callback has been told a response of the server, the server sent that response: for
      this id, on a connection on which the client sent this request exactly once, and with the sanitised result
      of the handler (or the too-large notice) as its content. */
  lemma CallbackHearsTheServer(run: seq<Sys>, i: nat, j: nat)
    requires IsRun(run) && i < |run| && j < |run[i].client.h.fired| && run[i].client.h.fired[j].reply.Received?
    ensures var s := run[i]; var d := s.client.h.fired[j];
            exists c: Conn, k: nat ::
              && IsAnswer(s.srv, c, k, d)
              && C.Delivered(d) == Intended(d.id, ResultOf(s.srv.sent[c][k].kind), s.srv.cfg.maxSize)
              && CI.Requests(C.Sent(s.client.h, c), d.id) == 1
  {
    RunGenuine(run, i);
    var s := run[i];
    var d := s.client.h.fired[j];
    assert Genuine(s.srv, d);
    var c: Conn, k: nat :| IsAnswer(s.srv, c, k, d);
    AnswersAreUnique(run, i, c, k);
  }
}
