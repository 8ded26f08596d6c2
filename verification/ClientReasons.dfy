/** Why a request failed: what a callback is told agrees with what happened to its request. */
module ClientReasons {
  import opened Options
  import opened RpcMessage
  import opened ClientModel
  import opened ClientInvariant
  import opened ClientSteps
  import opened ClientProperties

  type Ledgers = map<Id, Ledger>

  /** A failure that the client reports, against the ledger of its request: a reconnect timeout means that all chances
      are used up; a request timeout, that one was asked for; a cancel or a closed connection, that the request had been
      sent; a refusal, that it never was. */
  predicate ReasonOk(ledger: Ledgers, id: Id, reply: Reply) {
    reply.Failed? ==>
      && (reply.code == RECONNECT_TIMEOUT ==>
            id in ledger && ledger[id].resends + ledger[id].waits == ledger[id].limit)
      && (reply.code == REQUEST_TIMEOUT ==> id in ledger && ledger[id].timeout > 0)
      && (reply.code == REQUEST_CANCELED || reply.code == CONNECTION_CLOSED ==> id in ledger)
      && (reply.code == MESSAGE_TOO_LARGE || reply.code == RESOURCE_EXHAUSTED ==> id !in ledger)
      && reply.code != INTERNAL_ERROR
  }

  predicate FrameReasons(ledger: Ledgers, f: Frame) {
    f.Callbacks? ==> forall id | id in f.todo :: ReasonOk(ledger, id, f.todo[id].reply)
  }

  ghost predicate StackReasons(ledger: Ledgers, stack: Stack) {
    stack.Push? ==> FrameReasons(ledger, stack.top) && StackReasons(ledger, stack.below)
  }

  ghost predicate FiredReasons(ledger: Ledgers, fired: seq<Delivery>) {
    forall i | 0 <= i < |fired| :: ReasonOk(ledger, fired[i].id, fired[i].reply)
  }

  ghost predicate Reasons(s: State) {
    StackReasons(s.h.ledger, s.stack) && FiredReasons(s.h.ledger, s.h.fired)
  }

  // ------------------------------------------ completed requests keep their ledger

  ghost predicate SameEntry(ledger: Ledgers, ledger': Ledgers, id: Id) {
    (id in ledger <==> id in ledger') && (id in ledger ==> ledger'[id] == ledger[id])
  }

  /** Only queued and pending requests have their ledger written. */
  ghost predicate Untouched(s: State, s': State) {
    forall id | id !in s.queued && id !in s.pending :: SameEntry(s.h.ledger, s'.h.ledger, id)
  }

  lemma {:induction false} StackKept(ledger: Ledgers, ledger': Ledgers, stack: Stack)
    requires StackReasons(ledger, stack) && forall id | Held(stack, id) > 0 :: SameEntry(ledger, ledger', id)
    ensures StackReasons(ledger', stack)
  {
    if stack.Push? {
      forall id | Held(stack.below, id) > 0
        ensures SameEntry(ledger, ledger', id)
      {
        assert Held(stack, id) > 0;
      }
      StackKept(ledger, ledger', stack.below);
      if stack.top.Callbacks? {
        forall id | id in stack.top.todo
          ensures ReasonOk(ledger', id, stack.top.todo[id].reply)
        {
          assert Held(stack, id) > 0;
          assert SameEntry(ledger, ledger', id);
        }
      }
    }
  }

  lemma FiredKept(ledger: Ledgers, ledger': Ledgers, fired: seq<Delivery>)
    requires FiredReasons(ledger, fired) && forall id | Fired(fired, id) > 0 :: SameEntry(ledger, ledger', id)
    ensures FiredReasons(ledger', fired)
  {
    forall i | 0 <= i < |fired|
      ensures ReasonOk(ledger', fired[i].id, fired[i].reply)
    {
      FiredPositive(fired, i);
      assert SameEntry(ledger, ledger', fired[i].id);
    }
  }

  /** What was reported, or is about to be, stays right. */
  lemma ReasonsStay(s: State, s': State)
    requires (forall id :: Good(s, id)) && Reasons(s) && Untouched(s, s')
    ensures StackReasons(s'.h.ledger, s.stack) && FiredReasons(s'.h.ledger, s.h.fired)
  {
    forall id | Held(s.stack, id) > 0
      ensures SameEntry(s.h.ledger, s'.h.ledger, id)
    {
      assert Good(s, id);
    }
    StackKept(s.h.ledger, s'.h.ledger, s.stack);
    forall id | Fired(s.h.fired, id) > 0
      ensures SameEntry(s.h.ledger, s'.h.ledger, id)
    {
      assert Good(s, id);
    }
    FiredKept(s.h.ledger, s'.h.ledger, s.h.fired);
  }

  // ------------------------------------------------------------ new failures

  /** At most one frame with callbacks is added, possibly above a plain one, and its reasons are right. */
  predicate AddsReasons(ledger: Ledgers, stack: Stack, stack': Stack) {
    || stack' == stack
    || (stack'.Push? && FrameReasons(ledger, stack'.top)
        && (stack'.below == stack
            || (stack'.below.Push? && !stack'.below.top.Callbacks? && stack'.below.below == stack)))
  }

  ghost predicate Accounted(s: State, s': State) {
    Untouched(s, s') && AddsReasons(s'.h.ledger, s.stack, s'.stack) && s'.h.fired == s.h.fired
  }

  lemma AddedIsRight(ledger: Ledgers, stack: Stack, stack': Stack)
    requires StackReasons(ledger, stack) && AddsReasons(ledger, stack, stack')
    ensures StackReasons(ledger, stack')
  {
    if stack' != stack && stack'.below != stack {
      assert StackReasons(ledger, stack'.below);
    }
  }

  lemma AccountedKeeps(s: State, s': State)
    requires (forall id :: Good(s, id)) && Reasons(s) && Accounted(s, s')
    ensures Reasons(s')
  {
    ReasonsStay(s, s');
    AddedIsRight(s'.h.ledger, s.stack, s'.stack);
  }

  lemma RejectAccounted(s: State, id: Id, args: Args, reply: Reply)
    requires ReasonOk(s.h.ledger, id, reply)
    ensures Accounted(s, RejectStep(s, id, args, reply))
  {}

  lemma AdmitAccounted(s: State, id: Id, args: Args, c: Conn)
    requires id in s.queued
    ensures Accounted(s, AdmitStep(s, id, args, c))
  {}

  lemma StartCallAccounted(s: State, id: Id)
    requires LedgerOk(s, id) && s.cfg.Valid() && id in s.queued
    ensures Accounted(s, StartCallStep(s, id))
  {
    var args := s.queued[id];
    if BodyLen(args.body) <= s.cfg.MaxSize() {
      FitsEncodes(s.cfg, id, args.body);
    }
    match Refusal(s, args.body)
    case Some(reply) => RejectAccounted(s, id, args, reply);
    case None => AdmitAccounted(s, id, args, s.conn.value);
  }

  lemma AbandonAccounted(s: State, id: Id, now: nat, code: u16, notice: Notice)
    requires id in s.pending && ReasonOk(s.h.ledger, id, Failed(code, notice))
    ensures Accounted(s, AbandonStep(s, id, now, code, notice))
  {}

  lemma FailAllAccounted(s: State, s1: State, code: u16, notice: Notice)
    requires s1.pending == s.pending && s1.h.ledger == s.h.ledger && s1.h.fired == s.h.fired
    requires s1.stack == s.stack || (s1.stack.Push? && !s1.stack.top.Callbacks? && s1.stack.below == s.stack)
    requires s.pending.Keys <= s.h.ledger.Keys && code == CONNECTION_CLOSED
    ensures Accounted(s, FailAllPending(s1, code, notice))
  {
    assert FrameReasons(s.h.ledger, Callbacks(Failures(s.pending, s.pending.Keys, code, notice), false));
  }

  lemma FailDisreconnectAccounted(s: State, s1: State, code: u16, notice: Notice)
    requires s1.pending == s.pending && s1.h.ledger == s.h.ledger && s1.h.fired == s.h.fired
    requires s1.stack.Push? && !s1.stack.top.Callbacks? && s1.stack.below == s.stack
    requires s.pending.Keys <= s.h.ledger.Keys && (code == CONNECTION_CLOSED || code == CONNECTION_UNAVAILABLE)
    ensures Accounted(s, FailDisreconnect(s1, code, notice))
  {
    var ledger' := MoveKept(s.h.ledger, s.pending);
    assert FrameReasons(ledger', Callbacks(Failures(s.pending, Failing(s.pending), code, notice), true));
  }

  lemma WaitOverAccounted(s: State, id: Id)
    requires Good(s, id) && id in s.pending && s.pending[id].remainingResends == 1
    ensures Accounted(s, WaitOverStep(s, id))
  {}

  lemma WaitOnAccounted(s: State, id: Id)
    requires id in s.pending
    ensures Accounted(s, WaitOnStep(s, id))
  {}

  /** The request of a request timer was admitted with a timeout. */
  predicate Armed(s: State, t: Timer) {
    t.kind == RequestTimer ==> t.id in s.h.ledger && s.h.ledger[t.id].timeout > 0
  }

  lemma TimerAccounted(s: State, timer: Timer, now: nat)
    requires Good(s, timer.id) && Armed(s, timer)
    ensures Accounted(s, TimerStep(s, timer, now))
  {
    var s1 := s.(timers := s.timers - {timer});
    var id := timer.id;
    if id in s.pending {
      if timer.kind == RequestTimer && s.pending[id].phase == WaitingResponse {
        AbandonAccounted(s1, id, now, REQUEST_TIMEOUT, TimedOut);
      } else if timer.kind == ReconnectTimer && s.pending[id].phase == WaitingReconnect {
        if s.pending[id].remainingResends == 1 {
          WaitOverAccounted(s1, id);
        } else {
          WaitOnAccounted(s1, id);
        }
      }
    }
  }

  lemma MessageAccounted(s: State, answer: Outcome<Response>)
    ensures Accounted(s, MessageStep(s, answer))
  {}

  lemma DisconnectAccounted(s: State)
    requires s.pending.Keys <= s.h.ledger.Keys
    ensures Accounted(s, DisconnectStep(s))
  {
    var s1 := s.(manual := true);
    match s.status
    case Connected =>
    case Connecting => FailAllAccounted(s, s1.(status := Disconnected), CONNECTION_CLOSED, Closed);
    case Disconnecting =>
      FailAllAccounted(s, s1.(h := s.h.(forgot := s.h.forgot + s.pending.Keys)), CONNECTION_CLOSED, Closed);
    case Disconnected => FailAllAccounted(s, s1, CONNECTION_CLOSED, Closed);
  }

  lemma LostAccounted(s: State)
    requires s.pending.Keys <= s.h.ledger.Keys
    ensures Accounted(s, DownStep(s)) && Accounted(s, ConnErrorStep(s))
  {
    var s1 := s.(status := Disconnected, conn := None, up := false, stack := Push(AfterDown, s.stack),
                 h := s.h.(answered := {}, forgot := {}));
    if s.manual {
      FailAllAccounted(s, s1, CONNECTION_CLOSED, Closed);
    } else {
      FailDisreconnectAccounted(s, s1, CONNECTION_CLOSED, Closed);
    }
    FailDisreconnectAccounted(
      s, s.(status := Disconnected, conn := None, up := false, stack := Push(AfterError, s.stack)),
      CONNECTION_UNAVAILABLE, Unavailable);
  }

  lemma PlainAccounted(s: State, s': State)
    requires s'.h.ledger == s.h.ledger && s'.h.fired == s.h.fired && s'.stack == s.stack
    ensures Accounted(s, s')
  {}

  lemma UserAccounted(s: State, u: UserEvent)
    requires (forall id :: Good(s, id)) && s.cfg.Valid() && UserEnabled(s, u)
    ensures Accounted(s, UserNext(s, u))
  {
    PendingHasLedger(s);
    match u
    case StartCall(id) =>
      assert Good(s, id);
      StartCallAccounted(s, id);
    case Cancel(id, now) =>
      if id in s.pending {
        AbandonAccounted(s.(timers := WithoutTimer(s.timers, s.pending[id].timerId)), id, now,
                         REQUEST_CANCELED, Canceled);
      }
    case Disconnect => DisconnectAccounted(s);
    case _ => PlainAccounted(s, UserNext(s, u));
  }

  lemma PendingHasLedger(s: State)
    requires forall id :: Good(s, id)
    ensures s.pending.Keys <= s.h.ledger.Keys
  {
    forall id | id in s.pending
      ensures id in s.h.ledger
    {
      assert Good(s, id);
    }
  }

  lemma UpAccounted(s: State)
    ensures Accounted(s, UpStep(s))
  {}

  lemma LoopAccounted(s: State, l: LoopEvent)
    requires (forall id :: Good(s, id)) && LoopEnabled(s, l) && (l.TimerFires? ==> Armed(s, l.timer))
    ensures Accounted(s, LoopNext(s, l))
  {
    PendingHasLedger(s);
    match l
    case Up => UpAccounted(s);
    case Down => LostAccounted(s);
    case ConnError => LostAccounted(s);
    case Message(answer) => MessageAccounted(s, answer);
    case TimerFires(timer, now) =>
      assert Good(s, timer.id);
      TimerAccounted(s, timer, now);
    case _ => PlainAccounted(s, LoopNext(s, l));
  }

  lemma FireReasons(s: State, id: Id)
    requires FireEnabled(s, id) && Reasons(s) && StackOk(s.h.issued, s.stack)
    ensures Reasons(FireStep(s, id))
  {
    var rest := Callbacks(s.stack.top.todo - {id}, s.stack.top.ordered);
    assert FrameOk(s.h.issued, s.stack.top);
    assert DeliveryOk(s.h.issued, id, s.stack.top.todo[id]);
    assert FrameReasons(s.h.ledger, rest);
    assert StackReasons(s.h.ledger, Push(rest, s.stack.below));
  }

  lemma ResendAccounted(s: State, id: Id, c: Conn)
    requires id in s.pending && Encodes(s.pending[id].body)
    ensures Untouched(s, ResendStep(s, id, c))
    ensures ResendStep(s, id, c).stack == s.stack && ResendStep(s, id, c).h.fired == s.h.fired
  {}

  lemma ResendReasons(s: State, id: Id)
    requires Inv(s) && Reasons(s) && ResendEnabled(s, id)
    ensures Reasons(ResendNextStep(s, id))
  {
    var c := s.stack.top.conn;
    var s1 := s.(stack := Push(Resend(c, s.stack.top.ids - {id}), s.stack.below));
    assert StackReasons(s.h.ledger, s1.stack);
    if id in s.pending && s.pending[id].phase == WaitingReconnect {
      assert Good(s, id);
      FitsEncodes(s.cfg, id, s.pending[id].body);
      PlainFrames(s, s1);
      ResendAccounted(s1, id, c);
      ReasonsStay(s1, ResendStep(s1, id, c));
    }
  }

  lemma ResumeReasons(s: State)
    requires Reasons(s) && ResumeEnabled(s)
    ensures Reasons(ResumeStep(s))
  {
    AddedIsRight(s.h.ledger, s.stack.below, ResumeStep(s).stack);
  }

  lemma StepReasons(s: State, e: Event)
    requires Inv(s) && Reasons(s) && Enabled(s, e) && (e.Loop? && e.l.TimerFires? ==> Armed(s, e.l.timer))
    ensures Reasons(Next(s, e))
  {
    match e
    case User(u) =>
      UserAccounted(s, u);
      AccountedKeeps(s, UserNext(s, u));
    case Loop(l) =>
      LoopAccounted(s, l);
      AccountedKeeps(s, LoopNext(s, l));
    case Inside(Fire(id)) => FireReasons(s, id);
    case Inside(ResendNext(id)) => ResendReasons(s, id);
    case Inside(Resume) => ResumeReasons(s);
  }

  // --------------------------------------------------------- over whole runs

  ghost predicate AllArmed(s: State) {
    forall t | t in s.timers :: Armed(s, t)
  }

  /** A timer that this step sets is right. */
  ghost predicate Arms(s: State, s': State, t: Timer) {
    t in s'.timers && t !in s.timers ==> Armed(s', t)
  }

  lemma StartCallArms(s: State, id: Id, t: Timer)
    requires id in s.queued
    ensures Arms(s, StartCallStep(s, id), t)
  {}

  lemma LossArms(s: State, t: Timer)
    ensures Arms(s, DownStep(s), t) && Arms(s, ConnErrorStep(s), t)
  {}

  lemma TimerArms(s: State, timer: Timer, now: nat, t: Timer)
    ensures Arms(s, TimerStep(s, timer, now), t)
  {}

  lemma ResendArms(s: State, id: Id, c: Conn, t: Timer)
    requires PendingOk(s, id) && id in s.pending
    ensures Arms(s, ResendStep(s, id, c), t)
  {}

  lemma FewerTimers(s: State, s': State, t: Timer)
    requires s'.timers <= s.timers
    ensures Arms(s, s', t)
  {}

  lemma ResendNextArms(s: State, id: Id, t: Timer)
    requires Good(s, id) && ResendEnabled(s, id)
    ensures Arms(s, ResendNextStep(s, id), t)
  {
    if id in s.pending && s.pending[id].phase == WaitingReconnect {
      var c := s.stack.top.conn;
      ResendArms(s.(stack := Push(Resend(c, s.stack.top.ids - {id}), s.stack.below)), id, c, t);
    }
  }

  lemma UserArms(s: State, u: UserEvent, t: Timer)
    requires UserEnabled(s, u)
    ensures Arms(s, UserNext(s, u), t)
  {
    match u
    case StartCall(id) => StartCallArms(s, id, t);
    case _ => FewerTimers(s, UserNext(s, u), t);
  }

  lemma LoopArms(s: State, l: LoopEvent, t: Timer)
    requires LoopEnabled(s, l)
    ensures Arms(s, LoopNext(s, l), t)
  {
    match l
    case Down => LossArms(s, t);
    case ConnError => LossArms(s, t);
    case TimerFires(timer, now) => TimerArms(s, timer, now, t);
    case _ => FewerTimers(s, LoopNext(s, l), t);
  }

  /** A request timer is only ever set for a request with a timeout. */
  lemma EventArms(s: State, e: Event, t: Timer)
    requires (forall id :: Good(s, id)) && Enabled(s, e)
    ensures Arms(s, Next(s, e), t)
  {
    match e
    case User(u) => UserArms(s, u, t);
    case Loop(l) => LoopArms(s, l, t);
    case Inside(ResendNext(id)) =>
      assert Good(s, id);
      ResendNextArms(s, id, t);
    case _ => FewerTimers(s, Next(s, e), t);
  }

  lemma ArmedStep(s: State, e: Event)
    requires (forall id :: Good(s, id)) && AllArmed(s) && Enabled(s, e)
    ensures AllArmed(Next(s, e))
  {
    var s' := Next(s, e);
    forall t | t in s'.timers
      ensures Armed(s', t)
    {
      EventArms(s, e, t);
      EventTame(s, e, t.id);
      assert Arms(s, s', t) && Tame(s, s', t.id);
    }
  }

  /** Timers may fire late, but only timers that were set. */
  ghost predicate WasSet(run: seq<State>, i: nat, t: Timer) {
    exists m: nat :: m <= i < |run| && t in run[m].timers
  }

  ghost predicate RealAt(run: seq<State>, i: nat)
    requires i + 1 < |run|
  {
    exists e :: && Enabled(run[i], e) && run[i + 1] == Next(run[i], e)
                && (e.Loop? && e.l.TimerFires? ==> WasSet(run, i, e.l.timer))
  }

  ghost predicate RealTimers(run: seq<State>) {
    forall i: nat | i + 1 < |run| :: RealAt(run, i)
  }

  lemma {:induction false} RunArmed(run: seq<State>, i: nat)
    requires IsRun(run) && i < |run|
    ensures AllArmed(run[i])
  {
    if i > 0 {
      RunArmed(run, i - 1);
      RunInv(run, i - 1);
      assert StepAt(run, i - 1);
      var s, s' := run[i - 1], run[i];
      var e :| Enabled(s, e) && s' == Next(s, e);
      ArmedStep(s, e);
    }
  }

  lemma SetMeansArmed(run: seq<State>, i: nat, t: Timer)
    requires IsRun(run) && WasSet(run, i, t)
    ensures Armed(run[i], t)
  {
    var m: nat :| m <= i < |run| && t in run[m].timers;
    RunArmed(run, m);
    RunGrows(run, m, i);
    assert SameTerms(run[m].h, run[i].h, t.id);
  }

  lemma InitReasons(s: State)
    requires Init(s)
    ensures Reasons(s)
  {}

  lemma NextReasons(run: seq<State>, i: nat)
    requires IsRun(run) && RealTimers(run) && i + 1 < |run| && Reasons(run[i])
    ensures Reasons(run[i + 1])
  {
    RunInv(run, i);
    assert RealAt(run, i);
    var e :| && Enabled(run[i], e) && run[i + 1] == Next(run[i], e)
             && (e.Loop? && e.l.TimerFires? ==> WasSet(run, i, e.l.timer));
    if e.Loop? && e.l.TimerFires? {
      SetMeansArmed(run, i, e.l.timer);
    }
    StepReasons(run[i], e);
  }

  lemma {:induction false} RunReasons(run: seq<State>, i: nat)
    requires IsRun(run) && RealTimers(run) && i < |run|
    ensures Reasons(run[i])
  {
    if i == 0 {
      InitReasons(run[0]);
    } else {
      RunReasons(run, i - 1);
      NextReasons(run, i - 1);
    }
  }

  /** In every run in which only timers fire that were set at some time, stale or not, each callback was told the
      truth: "rpc reconnect timeout" only after all chances were used up, "rpc request timeout" only with a timeout,
      cancel and close only for requests that were sent, too-large and too-many only for ones that never were,
      and no internal error ever. */
  lemma ReasonsAreTrue(run: seq<State>, i: nat, j: nat)
    requires IsRun(run) && RealTimers(run) && i < |run| && j < |run[i].h.fired|
    ensures ReasonOk(run[i].h.ledger, run[i].h.fired[j].id, run[i].h.fired[j].reply)
  {
    RunReasons(run, i);
  }
}
