/** Every event of the client machine keeps the invariant; so does every run, with callbacks nested at will. */
module ClientSteps {
  import opened Options
  import opened Sets
  import opened RpcMessage
  import opened ClientModel
  import opened ClientInvariant

  // ---------------------------------------------------------------- sizes

  lemma SizeKept(s: State, s': State)
    requires SizeOk(s) && s'.cfg == s.cfg && s'.pending.Keys <= s.pending.Keys
    ensures SizeOk(s')
  {
    SubsetSize(s'.pending.Keys, s.pending.Keys);
    assert |s'.pending| == |s'.pending.Keys| && |s.pending| == |s.pending.Keys|;
  }

  // ----------------------------------------------------------- call and cancel

  lemma IssueInv(s: State, args: Args)
    requires Inv(s) && UserEnabled(s, Issue(args))
    ensures Inv(IssueStep(s, args))
  {
    var s' := IssueStep(s, args);
    forall id
      ensures Good(s', id)
    {
      assert Good(s, id);
    }
    assert Good(s, s.nextId);
    StackOkGrows(s.h.issued, s'.h.issued, s.stack);
    SameBooksKeepOut(s.h, s'.h);
  }

  lemma RejectInv(s: State, id: Id, reply: Reply)
    requires Inv(s) && id in s.queued && ReplyOk(id, reply)
    ensures Inv(RejectStep(s, id, s.queued[id], reply))
  {
    var s' := RejectStep(s, id, s.queued[id], reply);
    assert Good(s, id);
    forall j
      ensures Good(s', j)
    {
      assert Good(s, j);
    }
  }

  lemma AdmitOut(s: State, id: Id, args: Args, c: Conn)
    requires OutInv(s.h) && c < s.h.nextConn && id !in s.h.ledger
    ensures OutInv(AdmitStep(s, id, args, c).h)
  {
    var limit := args.resendLimit.ValueOr(s.cfg.defaultResendLimit);
    RequestKeepsOut(s.h, c, id, Ledger(args.body, args.timeout, limit, 0, 0, 0, {c}));
  }

  lemma AdmitShape(s: State, id: Id, args: Args, c: Conn)
    requires Shape(s) && SizeOk(s) && id !in s.pending
    requires s.cfg.maxPending.Some? ==> |s.pending| < s.cfg.maxPending.value
    ensures var s' := AdmitStep(s, id, args, c); Shape(s') && SizeOk(s') && s'.stack == s.stack
    ensures var h' := AdmitStep(s, id, args, c).h; h'.issued == s.h.issued && h'.fired == s.h.fired
  {
    assert AdmitStep(s, id, args, c).pending.Keys == s.pending.Keys + {id};
  }

  lemma AdmitInv(s: State, id: Id)
    requires Inv(s) && id in s.queued && s.status == Connected && s.conn.Some?
    requires BodyLen(s.queued[id].body) <= s.cfg.MaxSize()
    requires s.cfg.maxPending.Some? ==> |s.pending| < s.cfg.maxPending.value
    ensures Inv(AdmitStep(s, id, s.queued[id], s.conn.value))
  {
    var c, args := s.conn.value, s.queued[id];
    assert Good(s, id);
    forall j
      ensures Good(AdmitStep(s, id, args, c), j)
    {
      assert Good(s, j);
    }
    AdmitOut(s, id, args, c);
    AdmitShape(s, id, args, c);
  }

  lemma StartCallInv(s: State, id: Id)
    requires Inv(s) && id in s.queued
    ensures Inv(StartCallStep(s, id))
  {
    match Refusal(s, s.queued[id].body)
    case Some(reply) => RejectInv(s, id, reply);
    case None => AdmitInv(s, id);
  }

  /** `s1` is `s` without the pending request `id`, which is now ignored or answered; the books stay as they are. */
  ghost predicate Dropped(s: State, s1: State, id: Id) {
    && s1.cfg == s.cfg && s1.status == s.status && s1.conn == s.conn && s1.up == s.up && s1.manual == s.manual
    && s1.nextId == s.nextId && s1.serial == s.serial && s1.stack == s.stack && s1.queued == s.queued
    && s1.pending == s.pending - {id}
    && s1.h.ledger == s.h.ledger && s1.h.issued == s.h.issued && s1.h.fired == s.h.fired
    && s1.h.nextConn == s.h.nextConn && s1.h.forgot == s.h.forgot
    && (|| (s1.ignored == s.ignored && s1.h.answered == s.h.answered + {id})
        || (s1.ignored.Keys == s.ignored.Keys + {id} && s1.h.answered == s.h.answered))
  }

  lemma CompleteGood(s: State, s1: State, id: Id, callback: nat, reply: Reply, j: Id)
    requires Good(s, j) && Good(s, id) && id in s.pending && Dropped(s, s1, id)
    ensures Good(Calling(s1, id, callback, reply), j)
  {
    var s' := Calling(s1, id, callback, reply);
    assert Held(s'.stack, j) == Held(s.stack, j) + One(j == id);
    assert PlaceOk(s', j);
    assert PendingOk(s', j);
  }

  lemma CompleteInv(s: State, s1: State, id: Id, reply: Reply)
    requires Inv(s) && id in s.pending && Dropped(s, s1, id) && OutInv(s1.h)
    requires ReplyOk(id, reply)
    ensures Inv(Calling(s1, id, s.pending[id].callback, reply))
  {
    var callback := s.pending[id].callback;
    assert Good(s, id);
    SizeKept(s, s1);
    forall j
      ensures Good(Calling(s1, id, callback, reply), j)
    {
      assert Good(s, j);
      CompleteGood(s, s1, id, callback, reply, j);
    }
  }

  lemma AbandonInv(s: State, id: Id, now: nat, code: u16, notice: Notice)
    requires Inv(s) && id in s.pending && NO_ERROR < code < ERROR_CODE_CNT
    ensures Inv(AbandonStep(s, id, now, code, notice))
  {
    var s1 := SendCancel(s.(pending := s.pending - {id}, ignored := s.ignored[id := now + ONE_MINUTE]), id);
    assert s1.ignored.Keys == s.ignored.Keys + {id};
    if s.conn.Some? && s.up {
      CancelKeepsOut(s.h, s.conn.value, id);
    }
    CompleteInv(s, s1, id, Failed(code, notice));
  }

  lemma TimersDoNotMatter(s: State, timers: set<Timer>)
    requires Inv(s)
    ensures Inv(s.(timers := timers))
  {
    forall id
      ensures Good(s.(timers := timers), id)
    {
      assert Good(s, id);
    }
  }

  lemma CancelInv(s: State, id: Id, now: nat)
    requires Inv(s)
    ensures Inv(CancelStep(s, id, now))
  {
    if id in s.pending {
      TimersDoNotMatter(s, WithoutTimer(s.timers, s.pending[id].timerId));
      AbandonInv(s.(timers := WithoutTimer(s.timers, s.pending[id].timerId)), id, now, REQUEST_CANCELED, Canceled);
    }
  }

  // -------------------------------------------------------------- bulk failures

  /** `s1` differs from `s` only in connection state, connection-local history and frames without callbacks. */
  ghost predicate SameRequests(s: State, s1: State) {
    && s1.cfg == s.cfg && s1.nextId == s.nextId && s1.serial == s.serial
    && s1.queued == s.queued && s1.pending == s.pending && s1.ignored == s.ignored
    && s1.h.ledger == s.h.ledger && s1.h.issued == s.h.issued && s1.h.fired == s.h.fired
    && s1.h.nextConn == s.h.nextConn && s1.h.out == s.h.out
    && (s1.stack == s.stack || (s1.stack.Push? && !s1.stack.top.Callbacks? && s1.stack.below == s.stack))
  }

  lemma FailAllGood(s: State, s1: State, code: u16, notice: Notice, id: Id)
    requires Good(s, id) && SameRequests(s, s1)
    requires if s1.conn.None? then s1.h.forgot <= s.h.forgot
             else s1.conn == s.conn && s1.h.answered == s.h.answered && s1.h.forgot == s.h.forgot + s.pending.Keys
    ensures Good(FailAllPending(s1, code, notice), id)
  {
    var s' := FailAllPending(s1, code, notice);
    assert Held(s'.stack, id) == Held(s.stack, id) + One(id in s.pending);
  }

  lemma FailuresOk(s: State, ids: set<Id>, code: u16, notice: Notice)
    requires (forall id :: Good(s, id)) && ids <= s.pending.Keys && NO_ERROR < code < ERROR_CODE_CNT
    ensures FrameOk(s.h.issued, Callbacks(Failures(s.pending, ids, code, notice), false))
    ensures FrameOk(s.h.issued, Callbacks(Failures(s.pending, ids, code, notice), true))
  {
    forall id | id in ids
      ensures DeliveryOk(s.h.issued, id, Failures(s.pending, ids, code, notice)[id])
    {
      assert Good(s, id);
    }
  }

  lemma FailAllInv(s: State, s1: State, code: u16, notice: Notice)
    requires Inv(s) && SameRequests(s, s1) && Shape(s1) && NO_ERROR < code < ERROR_CODE_CNT
    requires if s1.conn.None? then s1.h.forgot <= s.h.forgot
             else s1.conn == s.conn && s1.h.answered == s.h.answered && s1.h.forgot == s.h.forgot + s.pending.Keys
    ensures Inv(FailAllPending(s1, code, notice))
  {
    var s' := FailAllPending(s1, code, notice);
    forall id
      ensures Good(s', id)
    {
      assert Good(s, id);
      FailAllGood(s, s1, code, notice, id);
    }
    FailuresOk(s, s.pending.Keys, code, notice);
    SizeKept(s, s');
    SameBooksKeepOut(s.h, s'.h);
  }

  lemma FailDisreconnectGood(s: State, s1: State, code: u16, notice: Notice, id: Id)
    requires Good(s, id) && SameRequests(s, s1) && s1.conn.None? && s1.h.forgot <= s.h.forgot
    ensures Good(FailDisreconnect(s1, code, notice), id)
  {
    var s' := FailDisreconnect(s1, code, notice);
    assert Held(s'.stack, id) == Held(s.stack, id) + One(id in Failing(s.pending));
    assert PlaceOk(s', id);
    assert PendingOk(s', id);
    assert LedgerOk(s', id);
  }

  lemma FailDisreconnectInv(s: State, s1: State, code: u16, notice: Notice)
    requires Inv(s) && SameRequests(s, s1) && Shape(s1) && s1.conn.None? && s1.h.forgot <= s.h.forgot
    requires NO_ERROR < code < ERROR_CODE_CNT
    ensures Inv(FailDisreconnect(s1, code, notice))
  {
    var s' := FailDisreconnect(s1, code, notice);
    forall id
      ensures Good(s', id)
    {
      assert Good(s, id);
      FailDisreconnectGood(s, s1, code, notice, id);
    }
    FailuresOk(s, Failing(s.pending), code, notice);
    SizeKept(s, s');
    SameBooksKeepOut(s.h, s'.h);
  }

  // --------------------------------------------------------- connection events

  /** Only flags changed: nothing a request depends on. */
  lemma FlagsOnly(s: State, s': State)
    requires Inv(s) && Shape(s') && SameRequests(s, s') && s'.stack == s.stack
    requires s'.conn == s.conn && s'.h.answered == s.h.answered && s'.h.forgot == s.h.forgot
    ensures Inv(s')
  {
    forall id
      ensures Good(s', id)
    {
      assert Good(s, id);
    }
    SameBooksKeepOut(s.h, s'.h);
  }

  lemma DisconnectInv(s: State)
    requires Inv(s)
    ensures Inv(DisconnectStep(s))
  {
    var s1 := s.(manual := true);
    match s.status
    case Connected => FlagsOnly(s, s1.(status := Disconnecting));
    case Connecting => FailAllInv(s, s1.(status := Disconnected), CONNECTION_CLOSED, Closed);
    case Disconnecting =>
      FailAllInv(s, s1.(h := s.h.(forgot := s.h.forgot + s.pending.Keys)), CONNECTION_CLOSED, Closed);
    case Disconnected => FailAllInv(s, s1, CONNECTION_CLOSED, Closed);
  }

  lemma UpInv(s: State)
    requires Inv(s) && LoopEnabled(s, Up)
    ensures Inv(UpStep(s))
  {
    var s' := UpStep(s);
    assert !Closing(Push(AfterUp(s.h.nextConn), Bottom));
    forall id
      ensures Good(s', id)
    {
      assert Good(s, id);
    }
    forall d, id
      ensures OutOk(s'.h, d, id)
    {
      assert OutOk(s.h, d, id) && Good(s, id);
    }
    forall d, i | 0 <= i < |Sent(s'.h, d)|
      ensures CopyOk(s'.h, Sent(s'.h, d)[i])
    {
      assert CopiesOk(s.h, d);
      assert CopyOk(s.h, Sent(s.h, d)[i]);
    }
    assert forall d :: CopiesOk(s'.h, d);
  }

  lemma DownInv(s: State)
    requires Inv(s)
    ensures Inv(DownStep(s))
  {
    var s1 := s.(status := Disconnected, conn := None, up := false, stack := Push(AfterDown, s.stack),
                 h := s.h.(answered := {}, forgot := {}));
    if s.manual {
      FailAllInv(s, s1, CONNECTION_CLOSED, Closed);
    } else {
      FailDisreconnectInv(s, s1, CONNECTION_CLOSED, Closed);
    }
  }

  lemma ConnErrorInv(s: State)
    requires Inv(s) && s.conn.None?
    ensures Inv(ConnErrorStep(s))
  {
    FailDisreconnectInv(s, s.(status := Disconnected, conn := None, up := false, stack := Push(AfterError, s.stack)),
                        CONNECTION_UNAVAILABLE, Unavailable);
  }

  // ------------------------------------------------------------ messages, timers

  lemma MessageInv(s: State, answer: Outcome<Response>)
    requires Inv(s) && (answer.Ok? ==> WellShaped(answer.value))
    ensures Inv(MessageStep(s, answer))
  {
    match answer
    case Err(_) => FlagsOnly(s, MessageStep(s, answer));
    case Ok(r) =>
      if r.id in s.pending {
        var s1 := s.(pending := s.pending - {r.id}, timers := WithoutTimer(s.timers, s.pending[r.id].timerId),
                     h := s.h.(answered := s.h.answered + {r.id}));
        SameBooksKeepOut(s.h, s1.h);
        CompleteInv(s, s1, r.id, Received(r));
      } else if r.id in s.ignored {
        LateAnswerInv(s, r.id);
      } else {
        FlagsOnly(s, MessageStep(s, answer));
      }
  }

  lemma LateAnswerInv(s: State, id: Id)
    requires Inv(s) && id in s.ignored
    ensures Inv(s.(ignored := s.ignored - {id}, h := s.h.(answered := s.h.answered + {id})))
  {
    var s' := s.(ignored := s.ignored - {id}, h := s.h.(answered := s.h.answered + {id}));
    forall j
      ensures Good(s', j)
    {
      assert Good(s, j);
    }
    SameBooksKeepOut(s.h, s'.h);
  }

  lemma WaitOnGood(s: State, id: Id, j: Id)
    requires Good(s, j) && Good(s, id) && id in s.pending && s.pending[id].phase == WaitingReconnect
    requires s.pending[id].remainingResends > 1
    ensures Good(WaitOnStep(s, id), j)
  {
    var s' := WaitOnStep(s, id);
    assert PendingOk(s', j);
    assert LedgerOk(s', j);
  }

  lemma WaitOverGood(s: State, id: Id, j: Id)
    requires Good(s, j) && Good(s, id) && id in s.pending && s.pending[id].phase == WaitingReconnect
    requires s.pending[id].remainingResends == 1
    ensures Good(WaitOverStep(s, id), j)
  {
    var s' := WaitOverStep(s, id);
    assert Held(s'.stack, j) == Held(s.stack, j) + One(j == id);
    assert PlaceOk(s', j);
    assert PendingOk(s', j);
    assert LedgerOk(s', j);
  }

  lemma WaitKeepsOut(h: History, id: Id)
    requires OutInv(h)
    ensures OutInv(h.(ledger := CountWait(h.ledger, id)))
  {
    SameBooksKeepOut(h, h.(ledger := CountWait(h.ledger, id)));
  }

  lemma WaitOnInv(s: State, id: Id)
    requires Inv(s) && id in s.pending && s.pending[id].phase == WaitingReconnect && s.pending[id].remainingResends > 1
    ensures Inv(WaitOnStep(s, id))
  {
    assert Good(s, id);
    forall j
      ensures Good(WaitOnStep(s, id), j)
    {
      assert Good(s, j);
      WaitOnGood(s, id, j);
    }
    SizeKept(s, WaitOnStep(s, id));
    WaitKeepsOut(s.h, id);
  }

  lemma WaitOverInv(s: State, id: Id)
    requires Inv(s) && id in s.pending && s.pending[id].phase == WaitingReconnect && s.pending[id].remainingResends == 1
    ensures Inv(WaitOverStep(s, id))
  {
    assert Good(s, id);
    forall j
      ensures Good(WaitOverStep(s, id), j)
    {
      assert Good(s, j);
      WaitOverGood(s, id, j);
    }
    SizeKept(s, WaitOverStep(s, id));
    WaitKeepsOut(s.h, id);

  }

  lemma ReconnectTimeoutInv(s: State, id: Id)
    requires Inv(s)
    ensures Inv(ReconnectTimeoutStep(s, id))
  {
    if id in s.pending && s.pending[id].phase == WaitingReconnect {
      assert Good(s, id);
      if s.pending[id].remainingResends == 1 {
        WaitOverInv(s, id);
      } else {
        WaitOnInv(s, id);
      }
    }
  }

  lemma TimerInv(s: State, timer: Timer, now: nat)
    requires Inv(s)
    ensures Inv(TimerStep(s, timer, now))
  {
    var s1 := s.(timers := s.timers - {timer});
    TimersDoNotMatter(s, s1.timers);
    match timer.kind
    case RequestTimer =>
      if timer.id in s.pending && s.pending[timer.id].phase == WaitingResponse {
        AbandonInv(s1, timer.id, now, REQUEST_TIMEOUT, TimedOut);
      }
    case ReconnectTimer => ReconnectTimeoutInv(s1, timer.id);
  }

  lemma SweepInv(s: State, now: nat)
    requires Inv(s)
    ensures Inv(SweepStep(s, now))
  {
    var s' := SweepStep(s, now);
    forall id
      ensures Good(s', id)
    {
      assert Good(s, id);
    }
    SameBooksKeepOut(s.h, s'.h);
  }

  // ------------------------------------------------------------ frames in progress

  lemma FireGood(s: State, id: Id, j: Id)
    requires Good(s, j) && FireEnabled(s, id) && s.stack.top.todo[id].id == id
    ensures Good(FireStep(s, id), j)
  {
    var s' := FireStep(s, id);
    FiredAppend(s.h.fired, s.stack.top.todo[id], j);
    assert Held(s'.stack.below, j) + One(j == id) == Held(s.stack, j);
    assert Held(s'.stack, j) == Held(s'.stack.below, j);
    assert PlaceOk(s', j);
    assert PendingOk(s', j);
  }

  lemma FireInv(s: State, id: Id)
    requires Inv(s) && FireEnabled(s, id)
    ensures Inv(FireStep(s, id))
  {
    var s' := FireStep(s, id);
    var d := s.stack.top.todo[id];
    assert DeliveryOk(s.h.issued, id, d);
    assert Closing(s'.stack.below) == Closing(s.stack);
    forall j
      ensures Good(s', j)
    {
      assert Good(s, j);
      FireGood(s, id, j);
    }
    SameBooksKeepOut(s.h, s'.h);
  }

  lemma ResendGood(s: State, id: Id, c: Conn, j: Id)
    requires Inv(s) && id in s.pending && s.pending[id].phase == WaitingReconnect && s.conn == Some(c)
    requires Encodes(s.pending[id].body)
    ensures Good(ResendStep(s, id, c), j)
  {
    var s' := ResendStep(s, id, c);
    assert Good(s, j) && Good(s, id);
    assert s'.stack == s.stack;
    assert PendingOk(s', j);
    assert LedgerOk(s', j);
  }

  lemma ResendInv(s: State, id: Id, c: Conn)
    requires Inv(s) && id in s.pending && s.pending[id].phase == WaitingReconnect && s.conn == Some(c)
    ensures Inv(ResendStep(s, id, c))
  {
    var s' := ResendStep(s, id, c);
    assert Good(s, id);
    FitsEncodes(s.cfg, id, s.pending[id].body);
    forall j
      ensures Good(s', j)
    {
      ResendGood(s, id, c, j);
    }
    SizeKept(s, s');
    RequestKeepsOut(s.h, c, id, s'.h.ledger[id]);
  }

  /** Frames without callbacks come and go freely. */
  lemma PlainFrames(s: State, s': State)
    requires Inv(s) && s' == s.(stack := s'.stack)
    requires StackOk(s.h.issued, s'.stack) && (Closing(s'.stack) ==> Closing(s.stack))
    requires forall id :: Held(s'.stack, id) == Held(s.stack, id)
    ensures Inv(s')
  {
    forall id
      ensures Good(s', id)
    {
      assert Good(s, id);
    }
  }

  lemma ResendNextInv(s: State, id: Id)
    requires Inv(s) && ResendEnabled(s, id)
    ensures Inv(ResendNextStep(s, id))
  {
    var c := s.stack.top.conn;
    var s1 := s.(stack := Push(Resend(c, s.stack.top.ids - {id}), s.stack.below));
    PlainFrames(s, s1);
    if id in s.pending && s.pending[id].phase == WaitingReconnect {
      ResendInv(s1, id, c);
    }
  }

  lemma ClearIgnoredInv(s: State)
    requires Inv(s) && s.stack.Push? && (s.stack.top.AfterDown? || s.stack.top.AfterError?)
    ensures Inv(ResumeStep(s))
  {
    var s' := ResumeStep(s);
    forall id
      ensures Good(s', id)
    {
      assert Good(s, id);
    }
  }

  lemma ResumeInv(s: State)
    requires Inv(s) && ResumeEnabled(s)
    ensures Inv(ResumeStep(s))
  {
    if s.stack.top.AfterDown? || s.stack.top.AfterError? {
      ClearIgnoredInv(s);
    } else {
      PlainFrames(s, ResumeStep(s));
    }
  }

  // ---------------------------------------------------------------- main results

  lemma LoopInv(s: State, l: LoopEvent)
    requires Inv(s) && LoopEnabled(s, l)
    ensures Inv(LoopNext(s, l))
  {
    match l
    case Up => UpInv(s);
    case Down => DownInv(s);
    case ConnError => ConnErrorInv(s);
    case LinkDrop => FlagsOnly(s, LoopNext(s, l));
    case Message(answer) => MessageInv(s, answer);
    case TimerFires(timer, now) => TimerInv(s, timer, now);
    case Sweep(now) => SweepInv(s, now);
  }

  /** Every event keeps the invariant, whatever frames are in progress when it happens. */
  lemma StepInv(s: State, e: Event)
    requires Inv(s) && Enabled(s, e)
    ensures Inv(Next(s, e))
  {
    match e
    case User(Issue(args)) => IssueInv(s, args);
    case User(StartCall(id)) => StartCallInv(s, id);
    case User(Cancel(id, now)) => CancelInv(s, id, now);
    case User(Connect) => FlagsOnly(s, Next(s, e));
    case User(Disconnect) => DisconnectInv(s);
    case Loop(l) => LoopInv(s, l);
    case Inside(Fire(id)) => FireInv(s, id);
    case Inside(ResendNext(id)) => ResendNextInv(s, id);
    case Inside(Resume) => ResumeInv(s);
  }

  lemma {:induction false} RunInv(run: seq<State>, i: nat)
    requires IsRun(run) && i < |run|
    ensures Inv(run[i])
  {
    if i == 0 {
      InitInv(run[0]);
    } else {
      RunInv(run, i - 1);
      assert StepAt(run, i - 1);
      var s, s' := run[i - 1], run[i];
      var e :| Enabled(s, e) && s' == Next(s, e);
      StepInv(s, e);
    }
  }
}
