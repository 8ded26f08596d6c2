/** What the invariant says about every run of the client. */
module ClientProperties {
  import opened Options
  import opened RpcMessage
  import opened ClientModel
  import opened ClientInvariant
  import opened ClientSteps

  // -------------------------------------------------------------- exactly once

  lemma {:induction false} FiredAtMost(fired: seq<Delivery>, i: nat, j: nat)
    requires i < j < |fired| && fired[i].id == fired[j].id
    ensures Fired(fired, fired[i].id) >= 2
  {
    var id := fired[i].id;
    if j < |fired| - 1 {
      FiredAtMost(fired[..|fired| - 1], i, j);
    } else {
      FiredPositive(fired[..|fired| - 1], i);
    }
  }

  lemma {:induction false} FiredPositive(fired: seq<Delivery>, i: nat)
    requires i < |fired|
    ensures Fired(fired, fired[i].id) >= 1
  {
    if i < |fired| - 1 {
      FiredPositive(fired[..|fired| - 1], i);
    }
  }

  ghost predicate CalledRight(h: History, d: Delivery) {
    d.id in h.issued && d.callback == h.issued[d.id] && Delivered(d).id == d.id && WellShaped(Delivered(d))
  }

  /** In every state of every run each issued id is in exactly one place, no callback has been called twice, and
      every call went to the callback given to `call`, with a consistent response that carries the id. */
  lemma ExactlyOnce(run: seq<State>, i: nat, id: Id)
    requires IsRun(run) && i < |run|
    ensures var s := run[i];
            && One(id in s.queued) + One(id in s.pending) + Held(s.stack, id) + Fired(s.h.fired, id)
               == One(InRange(s, id))
            && (forall j, k | 0 <= j < k < |s.h.fired| :: s.h.fired[j].id != s.h.fired[k].id)
            && (forall j | 0 <= j < |s.h.fired| :: CalledRight(s.h, s.h.fired[j]))
  {
    RunInv(run, i);
    var s := run[i];
    assert Good(s, id);
    forall j, k | 0 <= j < k < |s.h.fired|
      ensures s.h.fired[j].id != s.h.fired[k].id
    {
      assert Good(s, s.h.fired[j].id);
      if s.h.fired[j].id == s.h.fired[k].id {
        FiredAtMost(s.h.fired, j, k);
      }
    }
    forall j | 0 <= j < |s.h.fired|
      ensures CalledRight(s.h, s.h.fired[j])
    {
    }
  }

  /** When nothing is queued, pending or in progress, every id ever issued has been called back. */
  lemma QuiescentMeansCompleted(run: seq<State>, i: nat, id: Id)
    requires IsRun(run) && i < |run|
    requires run[i].queued == map[] && run[i].pending == map[] && run[i].stack == Bottom
    ensures Fired(run[i].h.fired, id) == One(InRange(run[i], id))
  {
    RunInv(run, i);
    assert Good(run[i], id);
  }

  /** What happened stays: callbacks are never taken back, ids and admissions are never forgotten or altered. */
  ghost predicate Grows(h: History, h': History) {
    h.fired <= h'.fired && h.nextConn <= h'.nextConn && forall id :: SameTerms(h, h', id)
  }

  ghost predicate SameTerms(h: History, h': History, id: Id) {
    && (id in h.issued ==> id in h'.issued && h'.issued[id] == h.issued[id])
    && (id in h.ledger ==>
          && id in h'.ledger && h'.ledger[id].body == h.ledger[id].body
          && h'.ledger[id].timeout == h.ledger[id].timeout && h'.ledger[id].limit == h.ledger[id].limit
          && h.ledger[id].sentOn <= h'.ledger[id].sentOn)
  }

  lemma StepGrows(run: seq<State>, i: nat)
    requires IsRun(run) && i + 1 < |run|
    ensures Grows(run[i].h, run[i + 1].h)
  {
    RunInv(run, i);
    assert StepAt(run, i);
    StepTame(run[i], run[i + 1]);
  }

  lemma {:induction false} RunGrows(run: seq<State>, i: nat, j: nat)
    requires IsRun(run) && i <= j < |run|
    ensures Grows(run[i].h, run[j].h)
    decreases j
  {
    if i < j {
      RunGrows(run, i, j - 1);
      StepGrows(run, j - 1);
      forall id
        ensures SameTerms(run[i].h, run[j].h, id)
      {
        assert SameTerms(run[i].h, run[j - 1].h, id) && SameTerms(run[j - 1].h, run[j].h, id);
      }
    }
  }

  /** A request that a failure loop still has to report, or has reported, is already gone: cancelling it again, or
      a timer of it, calls nothing and changes nothing else. */
  lemma CompletedIsGone(run: seq<State>, i: nat, id: Id, now: nat, timer: Timer)
    requires IsRun(run) && i < |run| && Held(run[i].stack, id) + Fired(run[i].h.fired, id) > 0 && timer.id == id
    ensures CancelStep(run[i], id, now) == run[i]
    ensures TimerStep(run[i], timer, now) == run[i].(timers := run[i].timers - {timer})
    ensures id !in run[i].queued
  {
    RunInv(run, i);
    assert Good(run[i], id);
  }

  /** Whenever user code runs inside a method of the client, the whole invariant holds before and after anything it
      calls, and what the interrupted methods still have to do stays untouched below. */
  lemma CallbacksAreReentrant(run: seq<State>, i: nat, u: UserEvent)
    requires IsRun(run) && i < |run| && run[i].stack.Push? && run[i].stack.top.UserCode? && UserEnabled(run[i], u)
    ensures Inv(run[i]) && Inv(UserNext(run[i], u))
    ensures var stack' := UserNext(run[i], u).stack;
            stack' == run[i].stack || (stack'.Push? && stack'.top.Callbacks? && stack'.below == run[i].stack)
  {
    RunInv(run, i);
    StepInv(run[i], User(u));
  }

  // -------------------------------------------------------------- resend budget

  /** Request messages for `id` on the connections below `n`. */
  function FramesBelow(h: History, n: nat, id: Id): nat {
    if n == 0 then 0 else FramesBelow(h, n - 1, id) + Requests(Sent(h, n - 1), id)
  }

  lemma {:induction false} CountFrames(h: History, n: nat, id: Id)
    requires OutInv(h) && id in h.ledger
    ensures FramesBelow(h, n, id) == |set c | c in h.ledger[id].sentOn && c < n|
  {
    var sentOn := h.ledger[id].sentOn;
    if n == 0 {
      assert (set c | c in sentOn && c < n) == {};
    } else {
      CountFrames(h, n - 1, id);
      assert OutOk(h, n - 1, id);
      var before := set c | c in sentOn && c < n - 1;
      assert (set c | c in sentOn && c < n) == if n - 1 in sentOn then before + {n - 1} else before;
    }
  }

  /** Over all connections together a request is sent once plus once per resend, never beyond its limit,
      at most once on each connection, and always with the same bytes. */
  lemma ResendBudget(run: seq<State>, i: nat, id: Id)
    requires IsRun(run) && i < |run| && id in run[i].h.ledger
    ensures var h, l := run[i].h, run[i].h.ledger[id];
            && FramesBelow(h, h.nextConn, id) == 1 + l.resends <= 1 + l.limit <= 256
            && l.resends + l.waits <= l.limit
            && (forall c :: Requests(Sent(h, c), id) <= 1)
            && (forall c, k | 0 <= k < |Sent(h, c)| && IsRequest(Sent(h, c)[k], id) ::
                  Sent(h, c)[k].request == MakeRequest(id, l.body))
  {
    RunInv(run, i);
    var s := run[i];
    assert Good(s, id);
    CountFrames(s.h, s.h.nextConn, id);
    assert (set c | c in s.h.ledger[id].sentOn && c < s.h.nextConn) == s.h.ledger[id].sentOn;
    forall c
      ensures Requests(Sent(s.h, c), id) <= 1
    {
      assert OutOk(s.h, c, id);
    }
    forall c, k | 0 <= k < |Sent(s.h, c)| && IsRequest(Sent(s.h, c)[k], id)
      ensures Sent(s.h, c)[k].request == MakeRequest(id, s.h.ledger[id].body)
    {
      assert CopiesOk(s.h, c);
      assert CopyOk(s.h, Sent(s.h, c)[k]);
    }
  }

  /** For a pending request the budget balances: resends done, waits used up and resends left make the limit,
      so the 8-bit decrements of the resend loop and of the reconnect timeout never wrap. */
  lemma BudgetBalances(run: seq<State>, i: nat, id: Id)
    requires IsRun(run) && i < |run| && id in run[i].pending
    ensures id in run[i].h.ledger
    ensures var p, l := run[i].pending[id], run[i].h.ledger[id];
            && l.resends + l.waits + p.remainingResends == l.limit
            && (p.phase == WaitingReconnect ==> Decrement(p.remainingResends) == p.remainingResends - 1)
  {
    RunInv(run, i);
    assert Good(run[i], id);
  }

  // ---------------------------------------------------------- termination measure

  function Measure(p: Pending): nat {
    2 * p.remainingResends + One(p.phase == WaitingResponse)
  }

  /** A reconnect wait of `id` runs out in this step. */
  predicate WaitsOut(s: State, e: Event, id: Id) {
    && e.Loop? && e.l.TimerFires? && e.l.timer.kind == ReconnectTimer && e.l.timer.id == id
    && id in s.pending && s.pending[id].phase == WaitingReconnect
  }

  /** The measure of a request that stays pending does not rise, and falls when its phase changes. */
  ghost predicate MeasureOk(s: State, s': State, id: Id) {
    id in s.pending && id in s'.pending ==>
      && Measure(s'.pending[id]) <= Measure(s.pending[id])
      && (s'.pending[id].phase != s.pending[id].phase ==> Measure(s'.pending[id]) < Measure(s.pending[id]))
  }

  ghost predicate Tame(s: State, s': State, id: Id) {
    SameTerms(s.h, s'.h, id) && MeasureOk(s, s', id)
  }

  lemma TameStartCall(s: State, j: Id, id: Id)
    requires Good(s, id) && j in s.queued
    ensures Tame(s, StartCallStep(s, j), id)
  {}

  lemma TameAbandon(s: State, j: Id, now: nat, code: u16, notice: Notice, id: Id)
    requires j in s.pending
    ensures Tame(s, AbandonStep(s, j, now, code, notice), id)
  {}

  lemma TameFailDisreconnect(s: State, s1: State, code: u16, notice: Notice, id: Id)
    requires s1.h == s.h.(answered := s1.h.answered, forgot := s1.h.forgot) && s1.pending == s.pending
    ensures Tame(s, FailDisreconnect(s1, code, notice), id)
  {}

  lemma TameWaitOver(s: State, j: Id, id: Id)
    requires j in s.pending
    ensures Tame(s, WaitOverStep(s, j), id)
  {}

  lemma TameReconnectTimeout(s: State, j: Id, id: Id)
    requires Good(s, j)
    ensures Tame(s, ReconnectTimeoutStep(s, j), id)
    ensures j == id && id in s.pending && s.pending[id].phase == WaitingReconnect
            && id in ReconnectTimeoutStep(s, j).pending ==>
              Measure(ReconnectTimeoutStep(s, j).pending[id]) < Measure(s.pending[id])
  {
    if j in s.pending && s.pending[j].phase == WaitingReconnect {
      TameWaitOver(s, j, id);
    }
  }

  lemma TameTimer(s: State, timer: Timer, now: nat, id: Id)
    requires Good(s, timer.id)
    ensures Tame(s, TimerStep(s, timer, now), id)
  {
    var s1 := s.(timers := s.timers - {timer});
    if timer.kind == ReconnectTimer {
      TameReconnectTimeout(s1, timer.id, id);
    } else if timer.id in s.pending && s.pending[timer.id].phase == WaitingResponse {
      TameAbandon(s1, timer.id, now, REQUEST_TIMEOUT, TimedOut, id);
    }
  }

  lemma TameDisconnect(s: State, id: Id)
    ensures Tame(s, DisconnectStep(s), id)
  {}

  lemma TameMessage(s: State, answer: Outcome<Response>, id: Id)
    ensures Tame(s, MessageStep(s, answer), id)
  {}

  lemma TameDown(s: State, id: Id)
    ensures Tame(s, DownStep(s), id)
  {
    var s1 := s.(status := Disconnected, conn := None, up := false, stack := Push(AfterDown, s.stack),
                 h := s.h.(answered := {}, forgot := {}));
    if !s.manual {
      TameFailDisreconnect(s, s1, CONNECTION_CLOSED, Closed, id);
    }
  }

  lemma TameResend(s: State, j: Id, c: Conn, id: Id)
    requires j in s.pending && s.pending[j].remainingResends > 0 && s.pending[j].phase == WaitingReconnect
    ensures Tame(s, ResendStep(s, j, c), id)
  {
    if Encodes(s.pending[j].body) {
      assert ResendStep(s, j, c).pending.Keys == s.pending.Keys;
    } else {
      assert ResendStep(s, j, c).h == s.h;
    }
  }

  lemma TameResendNext(s: State, j: Id, id: Id)
    requires Good(s, j) && ResendEnabled(s, j)
    ensures Tame(s, ResendNextStep(s, j), id)
  {
    if j in s.pending && s.pending[j].phase == WaitingReconnect {
      var c := s.stack.top.conn;
      TameResend(s.(stack := Push(Resend(c, s.stack.top.ids - {j}), s.stack.below)), j, c, id);
    }
  }

  lemma TameUser(s: State, u: UserEvent, id: Id)
    requires Good(s, id) && UserEnabled(s, u)
    ensures Tame(s, UserNext(s, u), id)
  {
    match u
    case StartCall(j) => TameStartCall(s, j, id);
    case Cancel(j, now) =>
      if j in s.pending {
        TameAbandon(s.(timers := WithoutTimer(s.timers, s.pending[j].timerId)), j, now, REQUEST_CANCELED, Canceled, id);
      }
    case Disconnect => TameDisconnect(s, id);
    case _ =>
  }

  lemma TameConnError(s: State, id: Id)
    ensures Tame(s, ConnErrorStep(s), id)
  {
    TameFailDisreconnect(s, s.(status := Disconnected, conn := None, up := false, stack := Push(AfterError, s.stack)),
                         CONNECTION_UNAVAILABLE, Unavailable, id);
  }

  lemma TamePlain(s: State, s': State, id: Id)
    requires s'.pending == s.pending && s'.h.ledger == s.h.ledger && s'.h.issued == s.h.issued
    ensures Tame(s, s', id)
  {}

  lemma TameLoop(s: State, l: LoopEvent, id: Id)
    requires (forall j :: Good(s, j)) && LoopEnabled(s, l)
    ensures Tame(s, LoopNext(s, l), id)
  {
    match l
    case Down => TameDown(s, id);
    case ConnError => TameConnError(s, id);
    case Message(answer) => TameMessage(s, answer, id);
    case TimerFires(timer, now) =>
      assert Good(s, timer.id);
      TameTimer(s, timer, now, id);
    case _ => TamePlain(s, LoopNext(s, l), id);
  }

  lemma EventTame(s: State, e: Event, id: Id)
    requires (forall j :: Good(s, j)) && Enabled(s, e)
    ensures Tame(s, Next(s, e), id)
  {
    match e
    case User(u) =>
      assert Good(s, id);
      TameUser(s, u, id);
    case Loop(l) => TameLoop(s, l, id);
    case Inside(ResendNext(j)) =>
      assert Good(s, j);
      TameResendNext(s, j, id);
    case _ => TamePlain(s, Next(s, e), id);
  }

  ghost predicate LogGrows(s: State, s': State) {
    s.h.fired <= s'.h.fired && s.h.nextConn <= s'.h.nextConn
  }

  lemma UserLog(s: State, u: UserEvent)
    requires UserEnabled(s, u)
    ensures LogGrows(s, UserNext(s, u))
  {}

  lemma LoopLog(s: State, l: LoopEvent)
    requires LoopEnabled(s, l)
    ensures LogGrows(s, LoopNext(s, l))
  {}

  lemma FrameLog(s: State, f: FrameEvent)
    requires FrameEnabled(s, f)
    ensures LogGrows(s, FrameNext(s, f))
  {}

  lemma StepTame(s: State, s': State)
    requires Inv(s) && Step(s, s')
    ensures Grows(s.h, s'.h) && forall id :: MeasureOk(s, s', id)
  {
    var e :| Enabled(s, e) && s' == Next(s, e);
    assert LogGrows(s, s') by {
      match e
      case User(u) => UserLog(s, u);
      case Loop(l) => LoopLog(s, l);
      case Inside(f) => FrameLog(s, f);
    }
    forall id
      ensures SameTerms(s.h, s'.h, id) && MeasureOk(s, s', id)
    {
      assert Good(s, id);
      EventTame(s, e, id);
      assert Tame(s, s', id);
    }
  }

  /** No step raises the measure of a request; every change of phase and every reconnect wait that runs out lowers it,
      also when stale timers fire. */
  lemma MeasureDecreases(s: State, e: Event, id: Id)
    requires Inv(s) && Enabled(s, e) && id in s.pending && id in Next(s, e).pending
    ensures var p, p' := s.pending[id], Next(s, e).pending[id];
            && Measure(p') <= Measure(p)
            && (p'.phase != p.phase || WaitsOut(s, e, id) ==> Measure(p') < Measure(p))
  {
    assert Good(s, id);
    EventTame(s, e, id);
    assert Tame(s, Next(s, e), id);
    if WaitsOut(s, e, id) {
      TameReconnectTimeout(s.(timers := s.timers - {e.l.timer}), id, id);
    }
  }

  /** Over a whole run a request changes phase and runs out of waits at most 2 * limit + 1 times in all. */
  lemma BoundedCycling(run: seq<State>, i: nat, id: Id)
    requires IsRun(run) && i < |run| && id in run[i].h.ledger
    ensures var l := run[i].h.ledger[id]; l.moves + 2 * l.waits <= 2 * l.limit + 1 <= 511
    ensures id in run[i].pending ==>
              var l := run[i].h.ledger[id]; l.moves + 2 * l.waits + Measure(run[i].pending[id]) == 2 * l.limit + 1
  {
    RunInv(run, i);
    assert Good(run[i], id);
  }

  // --------------------------------------------------- phase and connection

  /** The phases of pending requests agree with the connection. */
  lemma PhasesMatchConnection(run: seq<State>, i: nat, id: Id)
    requires IsRun(run) && i < |run| && id in run[i].pending
    ensures var s, p := run[i], run[i].pending[id];
            && (s.status == Connected ==> s.conn.Some?)
            && (s.conn.None? ==> p.phase == WaitingReconnect)
            && (p.phase == WaitingReconnect ==>
                  p.allowReconnect && p.remainingResends >= 1 && p.reconnectTimeout > 0 && p.timerId.Some?
                  && p.timerId.value.kind == ReconnectTimer && p.timerId.value.after == p.reconnectTimeout)
            && (p.phase == WaitingResponse ==> (p.timerId.Some? <==> p.requestTimeout > 0))
            && (p.phase == WaitingResponse && p.timerId.Some? ==>
                  p.timerId.value.kind == RequestTimer && p.timerId.value.after == p.requestTimeout)
  {
    RunInv(run, i);
    assert Good(run[i], id);
  }

  // ------------------------------------------------------------- admission

  /** Pending requests respect the limit, are apart from ignored ones, and always encode. */
  lemma AdmissionSound(run: seq<State>, i: nat, id: Id)
    requires IsRun(run) && i < |run|
    ensures var s := run[i];
            && (s.cfg.maxPending.Some? ==> |s.pending| <= s.cfg.maxPending.value)
            && !(id in s.pending && id in s.ignored)
            && (id in s.pending || id in s.ignored ==> 1 <= id < s.nextId)
            && (id in s.pending ==> EncodeRequest(MakeRequest(id, s.pending[id].body)).Ok?
                                    && BodyLen(s.pending[id].body) <= s.cfg.MaxSize())
  {
    RunInv(run, i);
    assert Good(run[i], id);
    if id in run[i].pending {
      FitsEncodes(run[i].cfg, id, run[i].pending[id].body);
    }
  }

  /** Neither encode-error branch is ever taken: an admitted call is queued for its answer, a resend is sent. */
  lemma EncodeErrorsUnreachable(run: seq<State>, i: nat, id: Id)
    requires IsRun(run) && i < |run|
    ensures var s := run[i];
            && (UserEnabled(s, StartCall(id)) && s.status == Connected && s.up
                && BodyLen(s.queued[id].body) <= s.cfg.MaxSize()
                && (s.cfg.maxPending.Some? ==> |s.pending| < s.cfg.maxPending.value) ==>
                id in StartCallStep(s, id).pending)
            && (ResendEnabled(s, id) && id in s.pending ==> id in ResendNextStep(s, id).pending)
  {
    RunInv(run, i);
    var s := run[i];
    assert Good(s, id);
    if id in s.queued && BodyLen(s.queued[id].body) <= s.cfg.MaxSize() {
      FitsEncodes(s.cfg, id, s.queued[id].body);
    }
    if id in s.pending {
      FitsEncodes(s.cfg, id, s.pending[id].body);
    }
  }

  // -------------------------------------------------------- manual disconnect

  ghost predicate NoNewWork(s: State, s': State) {
    s'.pending.Keys <= s.pending.Keys && forall c, id :: SameCount(s, s', c, id)
  }

  ghost predicate SameCount(s: State, s': State, c: Conn, id: Id) {
    Requests(Sent(s'.h, c), id) == Requests(Sent(s.h, c), id)
  }

  ghost predicate Quiet(s: State, s': State, c: Conn, id: Id) {
    s'.manual && s'.pending.Keys <= s.pending.Keys && SameCount(s, s', c, id)
  }

  lemma QuietAbandon(s: State, j: Id, now: nat, code: u16, notice: Notice, c: Conn, id: Id)
    requires s.manual && j in s.pending
    ensures Quiet(s, AbandonStep(s, j, now, code, notice), c, id)
  {
    if s.conn.Some? {
      RequestsAppend(Sent(s.h, s.conn.value), MCancel(j), id);
    }
  }

  lemma QuietUser(s: State, u: UserEvent, c: Conn, id: Id)
    requires Shape(s) && s.manual && UserEnabled(s, u)
    ensures Quiet(s, UserNext(s, u), c, id)
  {
    if u.Cancel? && u.id in s.pending {
      QuietAbandon(s.(timers := WithoutTimer(s.timers, s.pending[u.id].timerId)), u.id, u.now,
                   REQUEST_CANCELED, Canceled, c, id);
    }
  }

  lemma QuietLoop(s: State, l: LoopEvent, c: Conn, id: Id)
    requires Shape(s) && s.manual && LoopEnabled(s, l) && !l.Up?
    ensures Quiet(s, LoopNext(s, l), c, id)
  {
    if l.TimerFires? && l.timer.id in s.pending && l.timer.kind == RequestTimer {
      QuietAbandon(s.(timers := s.timers - {l.timer}), l.timer.id, l.now, REQUEST_TIMEOUT, TimedOut, c, id);
    }
  }

  lemma QuietFrame(s: State, f: FrameEvent, c: Conn, id: Id)
    requires Shape(s) && s.manual && FrameEnabled(s, f)
    ensures Quiet(s, FrameNext(s, f), c, id)
  {}

  lemma ManualStep(run: seq<State>, i: nat)
    requires IsRun(run) && i + 1 < |run| && run[i].manual && run[i + 1].h.nextConn == run[i].h.nextConn
    ensures run[i + 1].manual && NoNewWork(run[i], run[i + 1])
  {
    assert Shape(run[i]) by {
      RunInv(run, i);
    }
    assert StepAt(run, i);
    var s, s' := run[i], run[i + 1];
    var e :| Enabled(s, e) && s' == Next(s, e);
    forall c, id
      ensures Quiet(s, s', c, id)
    {
      match e
      case User(u) => QuietUser(s, u, c, id);
      case Loop(l) => QuietLoop(s, l, c, id);
      case Inside(f) => QuietFrame(s, f, c, id);
    }
    assert Quiet(s, s', 0, 0);
    forall c, id
      ensures SameCount(s, s', c, id)
    {
      assert Quiet(s, s', c, id);
    }
  }

  /** From `disconnect()` until the next connection comes up no request is sent, no id becomes pending and pending
      only shrinks, whatever else is called or happens. */
  lemma {:induction false} ManualIsFinal(run: seq<State>, i: nat, j: nat)
    requires IsRun(run) && i <= j < |run| && run[i].manual && run[j].h.nextConn == run[i].h.nextConn
    ensures run[j].manual && NoNewWork(run[i], run[j])
    decreases j
  {
    if i < j {
      RunGrows(run, i, j - 1);
      StepGrows(run, j - 1);
      ManualIsFinal(run, i, j - 1);
      ManualStep(run, j - 1);
      forall c, id
        ensures SameCount(run[i], run[j], c, id)
      {
        assert SameCount(run[i], run[j - 1], c, id) && SameCount(run[j - 1], run[j], c, id);
      }
    }
  }

  /** When the connection of a manual disconnect goes down nothing is kept for a resend, and nothing becomes pending
      until the next connection. */
  lemma ManualDownKeepsNothing(run: seq<State>, i: nat, j: nat)
    requires IsRun(run) && i + 1 <= j < |run| && run[i].manual && LoopEnabled(run[i], Down)
    requires run[i + 1] == LoopNext(run[i], Down) && run[j].h.nextConn == run[i + 1].h.nextConn
    ensures run[i + 1].conn == None && run[j].pending == map[]
  {
    assert run[i + 1].pending == map[] && run[i + 1].manual;
    ManualIsFinal(run, i + 1, j);
  }

  // --------------------------------------------------------------- live timers

  /** Timers are cancelled exactly: a timer fires only while it is live. */
  ghost predicate Exact(s: State, e: Event) {
    e.Loop? && e.l.TimerFires? ==> e.l.timer in s.timers
  }

  ghost predicate TimerOwned(s: State, t: Timer) {
    t in s.timers ==> t.id in s.pending && s.pending[t.id].timerId == Some(t)
  }

  ghost predicate TimerLive(s: State, id: Id) {
    id in s.pending && s.pending[id].timerId.Some? ==> s.pending[id].timerId.value in s.timers
  }

  /** Live timers and the timers of pending requests are the same. */
  ghost predicate TimersMatch(s: State) {
    (forall t :: TimerOwned(s, t)) && (forall id :: TimerLive(s, id))
  }

  /** The timer of a pending request names it, its phase and a past moment. */
  ghost predicate OwnTimer(s: State, id: Id) {
    id in s.pending && s.pending[id].timerId.Some? ==>
      var t := s.pending[id].timerId.value;
      t.id == id && t.serial < s.serial
      && t.kind == (if s.pending[id].phase == WaitingReconnect then ReconnectTimer else RequestTimer)
  }

  ghost predicate TimersOk(s: State, t: Timer, id: Id) {
    TimerOwned(s, t) && TimerLive(s, id)
  }

  lemma TimersStartCall(s: State, j: Id, t: Timer, id: Id)
    requires OwnTimer(s, id) && TimersOk(s, t, id) && j in s.queued && j !in s.pending
    ensures TimersOk(StartCallStep(s, j), t, id)
  {}

  lemma TimersFailAll(s: State, code: u16, notice: Notice, t: Timer, id: Id)
    requires TimersOk(s, t, id)
    ensures TimersOk(FailAllPending(s, code, notice), t, id)
  {
    if t in s.timers {
      assert t in PendingTimers(s.pending);
    }
  }

  /** The timer of a request that already waited for a reconnect is not among those that are cancelled. */
  lemma WaitingTimerStays(s: State, id: Id)
    requires (forall j :: OwnTimer(s, j)) && TimerLive(s, id) && id in s.pending
    requires s.pending[id].phase == WaitingReconnect && s.pending[id].timerId.Some?
    ensures s.pending[id].timerId.value in SurvivorTimers(s.timers, s.pending, s.serial)
  {
    assert OwnTimer(s, id);
    forall j | j in s.pending && s.pending[j].phase == WaitingResponse && s.pending[j].timerId.Some?
      ensures s.pending[j].timerId.value != s.pending[id].timerId.value
    {
      assert OwnTimer(s, j);
    }
  }

  lemma OwnedAfterLoss(s: State, code: u16, notice: Notice, t: Timer)
    requires OwnTimer(s, t.id) && TimerOwned(s, t)
    ensures TimerOwned(FailDisreconnect(s, code, notice), t)
  {}

  lemma LiveAfterLoss(s: State, code: u16, notice: Notice, id: Id)
    requires (forall j :: OwnTimer(s, j)) && TimerLive(s, id)
    ensures TimerLive(FailDisreconnect(s, code, notice), id)
  {
    if id in s.pending && s.pending[id].phase == WaitingReconnect && s.pending[id].timerId.Some? {
      WaitingTimerStays(s, id);
    }
  }

  lemma TimersFailDisreconnect(s: State, code: u16, notice: Notice, t: Timer, id: Id)
    requires (forall j :: OwnTimer(s, j)) && TimersOk(s, t, id)
    ensures TimersOk(FailDisreconnect(s, code, notice), t, id)
  {
    assert OwnTimer(s, t.id);
    OwnedAfterLoss(s, code, notice, t);
    LiveAfterLoss(s, code, notice, id);
  }

  lemma TimersRearmed(s: State, j: Id, p: Pending, c: Conn, t: Timer, id: Id)
    requires (t in s.timers ==> t.id != j && TimerOwned(s, t)) && (id != j ==> TimerLive(s, id))
    ensures TimersOk(Rearmed(s, j, p, c), t, id)
  {}

  lemma TimersResend(s: State, j: Id, c: Conn, t: Timer, id: Id)
    requires OwnTimer(s, id) && OwnTimer(s, j) && TimersOk(s, t, id) && TimerOwned(s, t) && j in s.pending
    ensures TimersOk(ResendStep(s, j, c), t, id)
  {
    var p := s.pending[j].(remainingResends := Decrement(s.pending[j].remainingResends), phase := WaitingResponse);
    var s1 := s.(timers := WithoutTimer(s.timers, s.pending[j].timerId));
    if Encodes(p.body) {
      TimersRearmed(s1, j, p, c, t, id);
    }
  }

  lemma TimersReconnect(s: State, j: Id, t: Timer, id: Id)
    requires OwnTimer(s, id) && (id != j ==> TimerLive(s, id)) && TimerOwned(s, t) && (t in s.timers ==> t.id != j)
    requires j in s.pending && s.pending[j].phase == WaitingReconnect
    ensures TimersOk(ReconnectTimeoutStep(s, j), t, id)
  {}

  lemma TimersFire(s: State, timer: Timer, now: nat, t: Timer, id: Id)
    requires OwnTimer(s, id) && OwnTimer(s, timer.id) && OwnTimer(s, t.id) && TimersOk(s, t, id)
    requires timer in s.timers && TimerOwned(s, timer)
    ensures TimersOk(TimerStep(s, timer, now), t, id)
  {
    var s1 := s.(timers := s.timers - {timer});
    if timer.kind == ReconnectTimer {
      TimersReconnect(s1, timer.id, t, id);
    }
  }

  lemma TimersUser(s: State, u: UserEvent, t: Timer, id: Id)
    requires (forall j :: OwnTimer(s, j)) && TimersOk(s, t, id) && UserEnabled(s, u)
    requires u.StartCall? ==> u.id !in s.pending
    ensures TimersOk(UserNext(s, u), t, id)
  {
    assert OwnTimer(s, id);
    match u
    case StartCall(j) => TimersStartCall(s, j, t, id);
    case Cancel(j, now) =>
      if j in s.pending {
        assert OwnTimer(s, j);
      }
    case Disconnect => TimersFailAll(s, CONNECTION_CLOSED, Closed, t, id);
    case _ =>
  }

  lemma TimersLoop(s: State, l: LoopEvent, t: Timer, id: Id)
    requires (forall j :: OwnTimer(s, j)) && TimersOk(s, t, id) && LoopEnabled(s, l)
    requires l.TimerFires? ==> l.timer in s.timers && TimerOwned(s, l.timer)
    ensures TimersOk(LoopNext(s, l), t, id)
  {
    assert OwnTimer(s, id) && OwnTimer(s, t.id);
    match l
    case Down =>
      var s1 := s.(status := Disconnected, conn := None, up := false, stack := Push(AfterDown, s.stack),
                   h := s.h.(answered := {}, forgot := {}));
      TimersFailAll(s1, CONNECTION_CLOSED, Closed, t, id);
      forall j
        ensures OwnTimer(s1, j)
      {
        assert OwnTimer(s, j);
      }
      TimersFailDisreconnect(s1, CONNECTION_CLOSED, Closed, t, id);
    case ConnError =>
      var s1 := s.(status := Disconnected, conn := None, up := false, stack := Push(AfterError, s.stack));
      forall j
        ensures OwnTimer(s1, j)
      {
        assert OwnTimer(s, j);
      }
      TimersFailDisreconnect(s1, CONNECTION_UNAVAILABLE, Unavailable, t, id);
    case Message(answer) =>
      if answer.Ok? {
        assert OwnTimer(s, answer.value.id);
      }
    case TimerFires(timer, now) =>
      assert OwnTimer(s, timer.id);
      TimersFire(s, timer, now, t, id);
    case _ =>
  }

  lemma TimersFrame(s: State, f: FrameEvent, t: Timer, id: Id)
    requires (forall j :: OwnTimer(s, j)) && TimersOk(s, t, id) && FrameEnabled(s, f)
    ensures TimersOk(FrameNext(s, f), t, id)
  {
    if f.ResendNext? && f.id in s.pending {
      assert OwnTimer(s, id) && OwnTimer(s, f.id);
      var c := s.stack.top.conn;
      TimersResend(s.(stack := Push(Resend(c, s.stack.top.ids - {f.id}), s.stack.below)), f.id, c, t, id);
    }
  }

  lemma TimersStep(s: State, e: Event)
    requires Inv(s) && TimersMatch(s) && Enabled(s, e) && Exact(s, e)
    ensures TimersMatch(Next(s, e))
  {
    forall id
      ensures OwnTimer(s, id)
    {
      assert Good(s, id);
    }
    var s' := Next(s, e);
    forall t, id
      ensures TimersOk(s', t, id)
    {
      assert TimerOwned(s, t) && TimerLive(s, id);
      match e
      case User(u) =>
        if u.StartCall? {
          assert Good(s, u.id);
        }
        TimersUser(s, u, t, id);
      case Loop(l) =>
        if l.TimerFires? {
          assert TimerOwned(s, l.timer);
        }
        TimersLoop(s, l, t, id);
      case Inside(f) => TimersFrame(s, f, t, id);
    }
    forall t
      ensures TimerOwned(s', t)
    {
      assert TimersOk(s', t, 0);
    }
    forall id
      ensures TimerLive(s', id)
    {
      assert TimersOk(s', Timer(RequestTimer, 0, 0, 0), id);
    }
  }

  ghost predicate ExactAt(run: seq<State>, i: nat)
    requires i + 1 < |run|
  {
    exists e :: Enabled(run[i], e) && Exact(run[i], e) && run[i + 1] == Next(run[i], e)
  }

  /** In every run with exact timer cancellation, live timers correspond one-to-one to pending requests with a timer. */
  lemma {:induction false} TimersCorrespond(run: seq<State>, i: nat)
    requires IsRun(run) && (forall k: nat | k + 1 < |run| :: ExactAt(run, k)) && i < |run|
    ensures TimersMatch(run[i])
  {
    if i == 0 {
      assert forall t :: TimerOwned(run[0], t);
      assert forall id :: TimerLive(run[0], id);
    } else {
      TimersCorrespond(run, i - 1);
      RunInv(run, i - 1);
      assert ExactAt(run, i - 1);
      var s, s' := run[i - 1], run[i];
      var e :| Enabled(s, e) && Exact(s, e) && s' == Next(s, e);
      TimersStep(s, e);
    }
  }

  // ------------------------------------------------------------------ progress

  /** The live timer of a pending request fires while no method is in progress. */
  predicate OwnTimerFires(s: State, s': State, id: Id, now: nat) {
    && s.stack.Bottom? && id in s.pending && s.pending[id].timerId.Some? && s.pending[id].timerId.value in s.timers
    && s' == LoopNext(s, TimerFires(s.pending[id].timerId.value, now))
  }

  /** The request has been handed to its callback. */
  ghost predicate HandedOver(s: State, id: Id) {
    id !in s.pending && Held(s.stack, id) == 1
  }

  /** The request can wait for its own timer. */
  ghost predicate Timed(s: State, id: Id) {
    Inv(s) && TimersMatch(s) && s.stack.Bottom? && id in s.pending && s.pending[id].timerId.Some?
  }

  lemma RequestTimerOutcome(s: State, id: Id, now: nat)
    requires s.stack.Bottom? && id in s.pending && s.pending[id].phase == WaitingResponse
    ensures HandedOver(RequestTimeoutStep(s, id, now), id)
  {
    assert RequestTimeoutStep(s, id, now).stack.below == Bottom;
  }

  lemma ReconnectTimerOutcome(s: State, id: Id)
    requires s.stack.Bottom? && id in s.pending && s.pending[id].phase == WaitingReconnect
    requires s.pending[id].remainingResends >= 1
    ensures var s' := ReconnectTimeoutStep(s, id);
            || HandedOver(s', id)
            || (s'.stack.Bottom? && id in s'.pending && s'.pending[id].timerId.Some?
                && Measure(s'.pending[id]) < Measure(s.pending[id]))
  {
    if s.pending[id].remainingResends == 1 {
      var s' := ReconnectTimeoutStep(s, id);
      assert s' == WaitOverStep(s, id);
      assert s'.stack.top.Callbacks? && id in s'.stack.top.todo && s'.stack.below == Bottom;
      assert HandedOver(s', id);
    }
  }

  /** The timer completes the request, or lowers its measure and leaves it waiting for the next one. */
  lemma FiringHelps(s: State, id: Id, now: nat) returns (s': State)
    requires Timed(s, id)
    ensures OwnTimerFires(s, s', id, now)
    ensures HandedOver(s', id) || (Timed(s', id) && Measure(s'.pending[id]) < Measure(s.pending[id]))
  {
    var timer := s.pending[id].timerId.value;
    var e := Loop(TimerFires(timer, now));
    assert Good(s, id) && TimerLive(s, id);
    s' := Next(s, e);
    StepInv(s, e);
    TimersStep(s, e);
    var s1 := s.(timers := s.timers - {timer});
    if s.pending[id].phase == WaitingResponse {
      RequestTimerOutcome(s1, id, now);
    } else {
      ReconnectTimerOutcome(s1, id);
    }
  }

  /** A continuation that only fires timers of `id`. */
  ghost predicate OnlyFires(run: seq<State>, id: Id, now: nat) {
    run != [] && forall i | 0 <= i < |run| - 1 :: OwnTimerFires(run[i], run[i + 1], id, now)
  }

  lemma {:induction false} FiringEnds(s: State, id: Id, now: nat) returns (run: seq<State>)
    requires Timed(s, id)
    ensures OnlyFires(run, id, now) && run[0] == s && |run| <= Measure(s.pending[id]) + 1
    ensures HandedOver(run[|run| - 1], id)
    decreases Measure(s.pending[id])
  {
    var s' := FiringHelps(s, id, now);
    var rest := [s'];
    if !HandedOver(s', id) {
      rest := FiringEnds(s', id, now);
    }
    run := Prepend(s, rest, id, now);
  }

  lemma Prepend(s: State, rest: seq<State>, id: Id, now: nat) returns (run: seq<State>)
    requires OnlyFires(rest, id, now) && OwnTimerFires(s, rest[0], id, now)
    ensures OnlyFires(run, id, now) && run[0] == s && |run| == |rest| + 1 && run[|run| - 1] == rest[|rest| - 1]
  {
    run := [s] + rest;
  }

  /** Progress: in every run with exact timer cancellation, a pending request that has a timer is completed by firing
      its own live timers alone, at most as often as its measure says, even when nothing else ever happens. */
  lemma TimersCompleteIt(run: seq<State>, i: nat, id: Id, now: nat) returns (onward: seq<State>)
    requires IsRun(run) && (forall k: nat | k + 1 < |run| :: ExactAt(run, k)) && i < |run|
    requires run[i].stack.Bottom? && id in run[i].pending && run[i].pending[id].timerId.Some?
    ensures OnlyFires(onward, id, now) && onward[0] == run[i] && |onward| <= Measure(run[i].pending[id]) + 1
    ensures HandedOver(onward[|onward| - 1], id)
  {
    RunInv(run, i);
    TimersCorrespond(run, i);
    onward := FiringEnds(run[i], id, now);
  }
}
