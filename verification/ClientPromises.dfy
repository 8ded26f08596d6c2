/** What a caller of the client can rely on: its arguments are obeyed, a lost connection costs exactly the requests
    that have no chance left, the others are sent again, and a late answer is tolerated for a minute. */
module ClientPromises {
  import opened Options
  import opened RpcMessage
  import opened ClientModel
  import opened ClientInvariant
  import opened ClientSteps
  import opened ClientProperties

  // ------------------------------------------------- waiting requests are sent again

  /** A method in progress is still going to resend `id` on connection `c`. */
  predicate Due(stack: Stack, c: Conn, id: Id) {
    stack.Push? &&
    (stack.top == AfterUp(c) || (stack.top.Resend? && stack.top.conn == c && id in stack.top.ids)
     || Due(stack.below, c, id))
  }

  /** A request that waits although its connection is usable is due. */
  ghost predicate DueOk(s: State, id: Id) {
    id in s.pending && s.pending[id].phase == WaitingReconnect && s.conn.Some? && Usable(s, s.conn.value) ==>
      Due(s.stack, s.conn.value, id)
  }

  lemma DueUser(s: State, u: UserEvent, id: Id)
    requires DueOk(s, id) && UserEnabled(s, u)
    ensures DueOk(UserNext(s, u), id)
  {}

  lemma DueTimer(s: State, timer: Timer, now: nat, id: Id)
    requires DueOk(s, id)
    ensures DueOk(TimerStep(s, timer, now), id)
  {}

  lemma DueLoop(s: State, l: LoopEvent, id: Id)
    requires DueOk(s, id) && LoopEnabled(s, l)
    ensures DueOk(LoopNext(s, l), id)
  {
    if l.TimerFires? {
      DueTimer(s, l.timer, l.now, id);
    }
  }

  lemma DueResend(s: State, j: Id, id: Id)
    requires DueOk(s, id) && ResendEnabled(s, j)
    ensures DueOk(ResendNextStep(s, j), id)
  {}

  lemma DueResume(s: State, id: Id)
    requires Good(s, id) && DueOk(s, id) && ResumeEnabled(s)
    ensures DueOk(ResumeStep(s), id)
  {}

  lemma DueStep(s: State, e: Event, id: Id)
    requires Good(s, id) && DueOk(s, id) && Enabled(s, e)
    ensures DueOk(Next(s, e), id)
  {
    match e
    case User(u) => DueUser(s, u, id);
    case Loop(l) => DueLoop(s, l, id);
    case Inside(Fire(j)) =>
    case Inside(ResendNext(j)) => DueResend(s, j, id);
    case Inside(Resume) => DueResume(s, id);
  }

  lemma {:induction false} RunDue(run: seq<State>, i: nat, id: Id)
    requires IsRun(run) && i < |run|
    ensures DueOk(run[i], id)
  {
    if i > 0 {
      RunDue(run, i - 1, id);
      RunInv(run, i - 1);
      assert StepAt(run, i - 1);
      var s, s' := run[i - 1], run[i];
      var e :| Enabled(s, e) && s' == Next(s, e);
      assert Good(s, id);
      DueStep(s, e, id);
    }
  }

  /** In every run, whenever the client is at rest on a living connection, no pending request is left waiting for a
      reconnect: each has been sent on this very connection, exactly once. */
  lemma ResentOnReconnect(run: seq<State>, i: nat, id: Id)
    requires IsRun(run) && i < |run| && id in run[i].pending
    requires run[i].stack.Bottom? && run[i].status == Connected && run[i].up
    ensures var s := run[i];
            s.pending[id].phase == WaitingResponse && s.conn.Some? && Requests(Sent(s.h, s.conn.value), id) == 1
  {
    RunDue(run, i, id);
    RunInv(run, i);
    var s := run[i];
    assert Good(s, id);
    assert OutOk(s.h, s.conn.value, id);
  }

  // ------------------------------------------------------- the caller's arguments

  function LimitOf(cfg: Config, args: Args): u8 {
    args.resendLimit.ValueOr(cfg.defaultResendLimit)
  }

  /** How often a request may be sent again. */
  function Chances(cfg: Config, args: Args): nat {
    if args.allowReconnect then LimitOf(cfg, args) else 0
  }

  function WaitOf(cfg: Config, args: Args): nat {
    if args.reconnectTimeout == 0 then cfg.defaultReconnectTimeout else args.reconnectTimeout
  }

  /** The pending request is what was asked for. */
  predicate Serves(cfg: Config, args: Args, p: Pending) {
    && p.body == args.body && p.callback == args.callback && p.requestTimeout == args.timeout
    && (p.allowReconnect <==> Chances(cfg, args) > 0)
    && (args.allowReconnect ==> p.reconnectTimeout == WaitOf(cfg, args))
  }

  predicate Records(cfg: Config, args: Args, l: Ledger) {
    && l.body == args.body && l.timeout == args.timeout && l.limit == LimitOf(cfg, args)
    && l.resends + l.waits <= Chances(cfg, args)
  }

  /** The id was given to a call with these arguments, and they were obeyed so far. */
  ghost predicate Asked(s: State, id: Id, args: Args) {
    && InRange(s, id)
    && (id in s.queued ==> s.queued[id] == args)
    && (id in s.pending ==> Serves(s.cfg, args, s.pending[id]))
    && (id in s.h.ledger ==> Records(s.cfg, args, s.h.ledger[id]))
  }

  /** The step neither asks nor alters anything about `id`; its ledger goes on only while it waits for a reconnect. */
  ghost predicate SameAsking(s: State, s': State, id: Id) {
    && s'.cfg == s.cfg && s'.nextId >= s.nextId
    && (id in s'.queued ==> id in s.queued && s'.queued[id] == s.queued[id])
    && (id in s'.pending ==> id in s.pending && KeepsTerms(s.pending[id], s'.pending[id]))
    && (id in s'.h.ledger ==> id in s.h.ledger && SameBooks(s, s.h.ledger[id], s'.h.ledger[id], id))
  }

  predicate KeepsTerms(p: Pending, p': Pending) {
    && p'.body == p.body && p'.callback == p.callback && p'.requestTimeout == p.requestTimeout
    && p'.allowReconnect == p.allowReconnect && p'.reconnectTimeout == p.reconnectTimeout
  }

  predicate SameBooks(s: State, l: Ledger, l': Ledger, id: Id) {
    && l'.body == l.body && l'.timeout == l.timeout && l'.limit == l.limit
    && (l'.resends + l'.waits == l.resends + l.waits
        || (id in s.pending && s.pending[id].phase == WaitingReconnect))
  }

  lemma AskedAdmit(s: State, id: Id, args: Args, c: Conn)
    requires Good(s, id) && Asked(s, id, args) && id in s.queued && s.cfg.Valid()
    ensures Asked(AdmitStep(s, id, args, c), id, args) && AdmitStep(s, id, args, c).cfg == s.cfg
  {}

  lemma AskedSame(s: State, s': State, id: Id, args: Args)
    requires Good(s, id) && Good(s', id) && Asked(s, id, args) && SameAsking(s, s', id)
    ensures Asked(s', id, args)
  {}

  lemma SameStartCall(s: State, j: Id, id: Id)
    requires j in s.queued && (j != id || Refusal(s, s.queued[j].body).Some?)
    ensures SameAsking(s, StartCallStep(s, j), id)
  {}

  lemma SameIssue(s: State, args: Args, id: Id)
    requires UserEnabled(s, Issue(args)) && InRange(s, id)
    ensures SameAsking(s, IssueStep(s, args), id)
  {}

  lemma SameAbandon(s: State, j: Id, now: nat, code: u16, notice: Notice, id: Id)
    requires j in s.pending
    ensures SameAsking(s, AbandonStep(s, j, now, code, notice), id)
  {}

  lemma SameFailAll(s: State, s1: State, code: u16, notice: Notice, id: Id)
    requires s1.cfg == s.cfg && s1.nextId == s.nextId && s1.queued == s.queued && s1.h.ledger == s.h.ledger
    ensures SameAsking(s, FailAllPending(s1, code, notice), id)
  {}

  lemma SameDisconnect(s: State, id: Id)
    ensures SameAsking(s, DisconnectStep(s), id)
  {
    var s1 := s.(manual := true);
    match s.status
    case Connected => SamePlain(s, DisconnectStep(s), id);
    case Connecting => SameFailAll(s, s1.(status := Disconnected), CONNECTION_CLOSED, Closed, id);
    case Disconnecting =>
      SameFailAll(s, s1.(h := s.h.(forgot := s.h.forgot + s.pending.Keys)), CONNECTION_CLOSED, Closed, id);
    case Disconnected => SameFailAll(s, s1, CONNECTION_CLOSED, Closed, id);
  }

  lemma SameUser(s: State, u: UserEvent, id: Id)
    requires UserEnabled(s, u) && InRange(s, id) && !u.StartCall?
    ensures SameAsking(s, UserNext(s, u), id)
  {
    match u
    case Issue(args) => SameIssue(s, args, id);
    case Cancel(j, now) =>
      if j in s.pending {
        SameAbandon(s.(timers := WithoutTimer(s.timers, s.pending[j].timerId)), j, now, REQUEST_CANCELED, Canceled, id);
      }
    case Connect => SamePlain(s, UserNext(s, u), id);
    case Disconnect => SameDisconnect(s, id);
  }

  lemma SameWait(s: State, j: Id, id: Id)
    requires j in s.pending && s.pending[j].phase == WaitingReconnect
    ensures SameAsking(s, WaitOnStep(s, j), id) && SameAsking(s, WaitOverStep(s, j), id)
  {}

  lemma SameRequestTimeout(s: State, j: Id, now: nat, id: Id)
    ensures SameAsking(s, RequestTimeoutStep(s, j, now), id)
  {
    if j in s.pending && s.pending[j].phase == WaitingResponse {
      SameAbandon(s, j, now, REQUEST_TIMEOUT, TimedOut, id);
    } else {
      SamePlain(s, s, id);
    }
  }

  lemma SameReconnectTimeout(s: State, j: Id, id: Id)
    ensures SameAsking(s, ReconnectTimeoutStep(s, j), id)
  {
    if j in s.pending && s.pending[j].phase == WaitingReconnect {
      SameWait(s, j, id);
    } else {
      SamePlain(s, s, id);
    }
  }

  lemma SameTimer(s: State, timer: Timer, now: nat, id: Id)
    ensures SameAsking(s, TimerStep(s, timer, now), id)
  {
    var s1 := s.(timers := s.timers - {timer});
    match timer.kind
    case RequestTimer => SameRequestTimeout(s1, timer.id, now, id);
    case ReconnectTimer => SameReconnectTimeout(s1, timer.id, id);
  }

  lemma SameLoss(s: State, id: Id)
    ensures SameAsking(s, DownStep(s), id) && SameAsking(s, ConnErrorStep(s), id)
  {}

  lemma SameMessage(s: State, answer: Outcome<Response>, id: Id)
    ensures SameAsking(s, MessageStep(s, answer), id)
  {}

  lemma SamePlain(s: State, s': State, id: Id)
    requires s'.cfg == s.cfg && s'.nextId == s.nextId && s'.queued == s.queued && s'.pending == s.pending
    requires s'.h.ledger == s.h.ledger
    ensures SameAsking(s, s', id)
  {}

  lemma SameLoop(s: State, l: LoopEvent, id: Id)
    requires LoopEnabled(s, l)
    ensures SameAsking(s, LoopNext(s, l), id)
  {
    match l
    case Down => SameLoss(s, id);
    case ConnError => SameLoss(s, id);
    case Message(answer) => SameMessage(s, answer, id);
    case TimerFires(timer, now) => SameTimer(s, timer, now, id);
    case _ => SamePlain(s, LoopNext(s, l), id);
  }

  lemma SameRearmed(s: State, j: Id, p: Pending, c: Conn, id: Id)
    requires j in s.pending && KeepsTerms(s.pending[j], p) && s.pending[j].phase == WaitingReconnect
    ensures SameAsking(s, Rearmed(s, j, p, c), id)
  {}

  lemma SameResend(s: State, j: Id, c: Conn, id: Id)
    requires j in s.pending && s.pending[j].phase == WaitingReconnect
    ensures SameAsking(s, ResendStep(s, j, c), id)
  {
    var p := s.pending[j].(remainingResends := Decrement(s.pending[j].remainingResends), phase := WaitingResponse);
    if Encodes(p.body) {
      SameRearmed(s.(timers := WithoutTimer(s.timers, s.pending[j].timerId)), j, p, c, id);
    }
  }

  lemma SameFrame(s: State, f: FrameEvent, id: Id)
    requires FrameEnabled(s, f)
    ensures SameAsking(s, FrameNext(s, f), id)
  {
    if f.ResendNext? && f.id in s.pending && s.pending[f.id].phase == WaitingReconnect {
      var c := s.stack.top.conn;
      SameResend(s.(stack := Push(Resend(c, s.stack.top.ids - {f.id}), s.stack.below)), f.id, c, id);
    } else {
      SamePlain(s, FrameNext(s, f), id);
    }
  }

  lemma AskedStep(s: State, e: Event, id: Id, args: Args)
    requires Inv(s) && Asked(s, id, args) && Enabled(s, e)
    ensures Asked(Next(s, e), id, args) && Next(s, e).cfg == s.cfg
  {
    StepInv(s, e);
    assert Good(s, id) && Good(Next(s, e), id);
    if e.User? && e.u.StartCall? && e.u.id == id && Refusal(s, args.body).None? {
      AskedAdmit(s, id, args, s.conn.value);
    } else {
      match e {
        case User(u) =>
          if u.StartCall? {
            SameStartCall(s, u.id, id);
          } else {
            SameUser(s, u, id);
          }
        case Loop(l) => SameLoop(s, l, id);
        case Inside(f) => SameFrame(s, f, id);
      }
      AskedSame(s, Next(s, e), id, args);
    }
  }

  lemma {:induction false} RunAsked(run: seq<State>, i: nat, j: nat, id: Id)
    requires IsRun(run) && i <= j < |run| && id in run[i].queued
    ensures Asked(run[j], id, run[i].queued[id]) && run[j].cfg == run[i].cfg
    decreases j
  {
    if i == j {
      RunInv(run, i);
      assert Good(run[i], id);
    } else {
      RunAsked(run, i, j - 1, id);
      RunInv(run, j - 1);
      assert StepAt(run, j - 1);
      var s, s' := run[j - 1], run[j];
      var e :| Enabled(s, e) && s' == Next(s, e);
      AskedStep(s, e, id, run[i].queued[id]);
    }
  }

  /** In every run a call is served as it was asked: the callback, both timeouts and the permission to reconnect are the
      caller's (with the defaults where it left them open), every copy that is ever sent carries its body, and it is
      sent at most once more than it may be resent: exactly once if it did not allow reconnects or set the limit 0. */
  lemma ArgumentsAreObeyed(run: seq<State>, i: nat, j: nat, id: Id)
    requires IsRun(run) && i <= j < |run| && id in run[i].queued
    ensures var s, args := run[j], run[i].queued[id];
            && (id in s.pending ==> Serves(s.cfg, args, s.pending[id]))
            && (id in s.h.ledger ==> 1 <= FramesBelow(s.h, s.h.nextConn, id) <= 1 + Chances(s.cfg, args))
            && (forall c, k | 0 <= k < |Sent(s.h, c)| && IsRequest(Sent(s.h, c)[k], id) ::
                  Sent(s.h, c)[k].request == MakeRequest(id, args.body))
  {
    RunAsked(run, i, j, id);
    RunInv(run, j);
    var s := run[j];
    assert Good(s, id);
    if id in s.h.ledger {
      ResendBudget(run, j, id);
    }
    forall c, k | 0 <= k < |Sent(s.h, c)| && IsRequest(Sent(s.h, c)[k], id)
      ensures id in s.h.ledger
    {
      assert CopiesOk(s.h, c);
      assert CopyOk(s.h, Sent(s.h, c)[k]);
    }
  }

  // ---------------------------------------------------- what a lost connection costs

  /** The callback of `id` is about to be told this failure. */
  predicate Tells(stack: Stack, id: Id, callback: nat, code: u16, notice: Notice) {
    && stack.Push? && stack.top.Callbacks? && id in stack.top.todo
    && stack.top.todo[id] == Delivery(callback, id, Failed(code, notice))
  }

  /** The connection is lost, or could not be made, without a `disconnect()` by the user. */
  predicate Loses(s: State, l: LoopEvent) {
    LoopEnabled(s, l) && ((l.Down? && !s.manual) || l.ConnError?)
  }

  /** A pending request survives the loss of its connection if and only if its caller allowed reconnects and fewer
      chances are used up than its limit has. Then it waits as long as asked, on a timer that was just set, while one
      that waited already goes on with its old timer; otherwise its callback is told "connect closed", in id order. */
  lemma SurvivesLossIff(run: seq<State>, i: nat, j: nat, id: Id, l: LoopEvent)
    requires IsRun(run) && i <= j < |run| && id in run[i].queued && id in run[j].pending && Loses(run[j], l)
    ensures id in run[j].h.ledger
    ensures var s, s', args := run[j], LoopNext(run[j], l), run[i].queued[id];
            && (id in s'.pending <==>
                  args.allowReconnect && s.h.ledger[id].resends + s.h.ledger[id].waits < LimitOf(s.cfg, args))
            && (id in s'.pending ==>
                  && s'.pending[id].phase == WaitingReconnect && s'.pending[id].timerId.Some?
                  && s'.pending[id].timerId.value.after == WaitOf(s.cfg, args)
                  && (s.pending[id].phase == WaitingResponse ==>
                        s'.pending[id].timerId.value in s'.timers && s'.pending[id].timerId.value.serial == s.serial)
                  && (s.pending[id].phase == WaitingReconnect ==> s'.pending[id] == s.pending[id]))
            && (id !in s'.pending ==>
                  Tells(s'.stack, id, args.callback, CONNECTION_CLOSED, Closed) && s'.stack.top.ordered)
  {
    RunAsked(run, i, j, id);
    RunInv(run, j);
    assert Good(run[j], id);
    var s, s' := run[j], LoopNext(run[j], l);
    assert s'.pending == Survivors(s.pending, s.serial);
  }

  // ----------------------------------------------------- what `disconnect()` ends

  ghost predicate NothingWaits(s: State) {
    s.manual && s.conn.None? ==> s.pending == map[]
  }

  lemma NothingWaitsUser(s: State, u: UserEvent)
    requires Shape(s) && NothingWaits(s) && UserEnabled(s, u)
    ensures NothingWaits(UserNext(s, u))
  {}

  lemma NothingWaitsLoop(s: State, l: LoopEvent)
    requires Shape(s) && NothingWaits(s) && LoopEnabled(s, l)
    ensures NothingWaits(LoopNext(s, l))
  {}

  lemma NothingWaitsFrame(s: State, f: FrameEvent)
    requires Shape(s) && NothingWaits(s) && FrameEnabled(s, f)
    ensures NothingWaits(FrameNext(s, f))
  {}

  /** In every run, once the user has called `disconnect()` and there is no connection, nothing is pending, however the
      two came about. */
  lemma {:induction false} DisconnectedIsEmpty(run: seq<State>, i: nat)
    requires IsRun(run) && i < |run|
    ensures run[i].manual && run[i].conn.None? ==> run[i].pending == map[]
  {
    if i > 0 {
      DisconnectedIsEmpty(run, i - 1);
      RunInv(run, i - 1);
      assert StepAt(run, i - 1);
      var s, s' := run[i - 1], run[i];
      var e :| Enabled(s, e) && s' == Next(s, e);
      match e
      case User(u) => NothingWaitsUser(s, u);
      case Loop(l) => NothingWaitsLoop(s, l);
      case Inside(f) => NothingWaitsFrame(s, f);
    }
  }

  /** `disconnect()` while no connection is up or it is already closing, and the down event after a `disconnect()`:
      every pending request's own callback is told "connect closed". */
  lemma DisconnectTellsEveryone(s: State, id: Id)
    requires Inv(s) && id in s.pending && CanRunUser(s)
    ensures id in s.h.issued
    ensures s.status != Connected ==>
              Tells(UserNext(s, Disconnect).stack, id, s.h.issued[id], CONNECTION_CLOSED, Closed)
    ensures s.manual && s.conn.Some? ==>
              Tells(LoopNext(s, Down).stack, id, s.h.issued[id], CONNECTION_CLOSED, Closed)
  {
    assert Good(s, id);
  }

  // ------------------------------------------------------------- late answers

  /** The client gives up on a request it has sent: `cancel`, or the request's own timeout. */
  predicate GivesUp(s: State, e: Event, id: Id, now: nat) {
    && Enabled(s, e) && id in s.pending
    && (e == User(Cancel(id, now))
        || (e.Loop? && e.l.TimerFires? && e.l.now == now && e.l.timer.id == id && e.l.timer.kind == RequestTimer
            && s.pending[id].phase == WaitingResponse))
  }

  /** Neither the connection, nor a sweep at or after the deadline, nor an answer ends the patience with `id`. */
  predicate Patient(e: Event, id: Id, deadline: nat) {
    e.Loop? ==>
      match e.l
      case Down => false
      case ConnError => false
      case Sweep(now) => now < deadline
      case Message(answer) => answer.Ok? ==> answer.value.id != id
      case _ => true
  }

  ghost predicate PatientAt(run: seq<State>, k: nat, id: Id, deadline: nat)
    requires k + 1 < |run|
  {
    exists e :: Enabled(run[k], e) && run[k + 1] == Next(run[k], e) && Patient(e, id, deadline)
  }

  /** An answer for `id` that comes now is dropped in silence. */
  ghost predicate Tolerates(s: State, id: Id, deadline: nat) {
    s.conn.Some? && id in s.ignored && s.ignored[id] == deadline
  }

  lemma ToleratesUser(s: State, u: UserEvent, id: Id, deadline: nat)
    requires Shape(s) && IgnoredOk(s, id) && Tolerates(s, id, deadline) && UserEnabled(s, u)
    ensures Tolerates(UserNext(s, u), id, deadline)
  {}

  lemma ToleratesLoop(s: State, l: LoopEvent, id: Id, deadline: nat)
    requires Shape(s) && IgnoredOk(s, id) && Tolerates(s, id, deadline) && LoopEnabled(s, l)
    requires Patient(Loop(l), id, deadline)
    ensures Tolerates(LoopNext(s, l), id, deadline)
  {}

  lemma ToleratesFrame(s: State, f: FrameEvent, id: Id, deadline: nat)
    requires Shape(s) && Tolerates(s, id, deadline) && FrameEnabled(s, f)
    ensures Tolerates(FrameNext(s, f), id, deadline)
  {}

  lemma ToleratesStep(s: State, e: Event, id: Id, deadline: nat)
    requires Shape(s) && Good(s, id) && Tolerates(s, id, deadline) && Enabled(s, e) && Patient(e, id, deadline)
    ensures Tolerates(Next(s, e), id, deadline)
  {
    match e
    case User(u) => ToleratesUser(s, u, id, deadline);
    case Loop(l) => ToleratesLoop(s, l, id, deadline);
    case Inside(f) => ToleratesFrame(s, f, id, deadline);
  }

  lemma {:induction false} StaysTolerated(run: seq<State>, i: nat, j: nat, id: Id, deadline: nat)
    requires IsRun(run) && i <= j < |run| && Tolerates(run[i], id, deadline)
    requires forall k: nat | i <= k < j :: PatientAt(run, k, id, deadline)
    ensures Tolerates(run[j], id, deadline)
    decreases j
  {
    if i < j {
      StaysTolerated(run, i, j - 1, id, deadline);
      RunInv(run, j - 1);
      assert PatientAt(run, j - 1, id, deadline);
      var s, s' := run[j - 1], run[j];
      var e :| Enabled(s, e) && s' == Next(s, e) && Patient(e, id, deadline);
      assert Good(s, id);
      ToleratesStep(s, e, id, deadline);
    }
  }

  /** For one minute after the client gave up on a request its answer may still arrive on the same connection without
      closing it, whatever else is called or happens in between; it is dropped, and only the first one. */
  lemma LateAnswerIsDropped(run: seq<State>, i: nat, j: nat, e: Event, id: Id, now: nat, deadline: nat, r: Response)
    requires IsRun(run) && i < j < |run| && GivesUp(run[i], e, id, now) && run[i + 1] == Next(run[i], e)
    requires run[i].conn.Some? && r.id == id && deadline == now + 60000
    requires forall k: nat | i < k < j :: PatientAt(run, k, id, deadline)
    ensures var s, s' := run[j], MessageStep(run[j], Ok(r));
            && s'.h.unknownCloses == s.h.unknownCloses && s'.h.malformedCloses == s.h.malformedCloses
            && id in s.ignored && s'.ignored == s.ignored - {id}
            && s'.pending == s.pending && s'.stack == s.stack
  {
    assert Tolerates(run[i + 1], id, deadline);
    StaysTolerated(run, i + 1, j, id, deadline);
    RunInv(run, j);
    assert Good(run[j], id);
  }
}
