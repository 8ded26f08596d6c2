/** The `RpcClient` object. Each method is a stretch of src/RpcClient.cc between two user callbacks, works on the
    fields in place, and is proved to be the corresponding step of the client machine; so it keeps the invariant.

    `stack` is the C++ call stack as far as it matters: what the methods in progress still have to do.
    `h` records what happened and is never read by the program. */
module RpcClient {
  import opened ByteOrder
  import opened Options
  import opened RpcMessage
  import opened ClientModel
  import opened ClientInvariant
  import opened ClientSteps
  import opened ClientPromises
  import Objects = RpcMessageObjects

  /** The timers the given requests hold. */
  ghost function TimersOf(pending: map<Id, Pending>, ids: set<Id>): set<Timer> {
    set id | id in ids && id in pending && pending[id].timerId.Some? :: pending[id].timerId.value
  }

  ghost function ReconnectTimers(pending: map<Id, Pending>, ids: set<Id>, serial: nat): set<Timer> {
    set id | id in ids && id in pending :: Timer(ReconnectTimer, id, serial, pending[id].reconnectTimeout)
  }

  /** The first loop of `failAllDisreconnectRequests`: who waits for a new connection, and who fails. */
  method Sort(pending: map<Id, Pending>) returns (keep: set<Id>, fail: set<Id>)
    ensures keep == set id | id in pending && Keeps(pending[id])
    ensures fail == Failing(pending)
    ensures forall id | id in pending && pending[id].phase == WaitingResponse ::
              id in keep <==> pending[id].allowReconnect && pending[id].remainingResends > 0
    ensures keep !! fail && forall id | id in pending :: pending[id].phase == WaitingResponse <==> id in keep + fail
  {
    keep, fail := {}, {};
    var rest := pending.Keys;
    while rest != {}
      invariant rest <= pending.Keys
      invariant keep == set id | id in pending && id !in rest && Keeps(pending[id])
      invariant fail == set id | id in pending && id !in rest && Fails(pending[id])
    {
      var id :| id in rest;
      var p := pending[id];
      if p.phase == WaitingResponse {
        if p.allowReconnect {
          if p.remainingResends != 0 {
            keep := keep + {id};
          } else {
            fail := fail + {id};
          }
        } else {
          fail := fail + {id};
        }
      }
      rest := rest - {id};
    }
  }

  /** The first loop of `checkReconnect`. */
  method CollectWaiting(pending: map<Id, Pending>) returns (ids: set<Id>)
    ensures ids == CollectResends(pending)
    ensures forall id :: id in ids <==>
              id in pending && pending[id].phase == WaitingReconnect && pending[id].allowReconnect
              && pending[id].remainingResends > 0
  {
    ids := {};
    var rest := pending.Keys;
    while rest != {}
      invariant rest <= pending.Keys
      invariant ids == set id | id in pending && id !in rest && pending[id].phase == WaitingReconnect
                                && pending[id].allowReconnect && pending[id].remainingResends != 0
    {
      var id :| id in rest;
      var p := pending[id];
      rest := rest - {id};
      if p.phase != WaitingReconnect || !p.allowReconnect || p.remainingResends == 0 {
        continue;
      }
      ids := ids + {id};
    }
  }

  /** The second loop of `failAllDisreconnectRequests`: requests with budget wait for a new connection. */
  method ChangePhase(before: map<Id, Pending>, live: set<Timer>, keep: set<Id>, serial: nat)
    returns (pending: map<Id, Pending>, timers: set<Timer>)
    requires keep <= before.Keys && forall id | id in keep :: Keeps(before[id])
    requires forall id | id in before && before[id].timerId.Some? :: before[id].timerId.value.serial < serial
    ensures pending == map id | id in before :: if id in keep then Awaiting(id, before[id], serial) else before[id]
    ensures timers == live - TimersOf(before, keep) + ReconnectTimers(before, keep, serial)
  {
    pending, timers := before, live;
    var rest := keep;
    while rest != {}
      invariant rest <= keep
      invariant pending == map id | id in before ::
                             if id in keep - rest then Awaiting(id, before[id], serial) else before[id]
      invariant timers == live - TimersOf(before, keep - rest) + ReconnectTimers(before, keep - rest, serial)
    {
      var id :| id in rest;
      var p := pending[id].(phase := WaitingReconnect);
      if p.timerId.Some? {
        timers := timers - {p.timerId.value};
      }
      var timer := Timer(ReconnectTimer, id, serial, p.reconnectTimeout);
      timers := timers + {timer};
      pending := pending[id := p.(timerId := Some(timer))];
      rest := rest - {id};
    }
    assert keep - {} == keep;
  }

  /** The third loop: take the failing requests out and collect their callbacks. */
  method TakeFailing(before: map<Id, Pending>, live: set<Timer>, fail: set<Id>, code: u16, notice: Notice)
    returns (pending: map<Id, Pending>, timers: set<Timer>, callbacks: map<Id, Delivery>)
    requires fail <= before.Keys
    ensures pending == before - fail && timers == live - TimersOf(before, fail)
    ensures callbacks == Failures(before, fail, code, notice)
  {
    pending, timers, callbacks := before, live, map[];
    var rest := fail;
    while rest != {}
      invariant rest <= fail
      invariant pending == before - (fail - rest) && timers == live - TimersOf(before, fail - rest)
      invariant callbacks == Failures(before, fail - rest, code, notice)
    {
      var id :| id in rest;
      if pending[id].timerId.Some? {
        timers := timers - {pending[id].timerId.value};
      }
      callbacks := callbacks[id := Delivery(pending[id].callback, id, Failed(code, notice))];
      pending := pending - {id};
      rest := rest - {id};
    }
    assert fail - {} == fail;
  }

  /** The checks of `onRpcMessage` before it looks the request up. */
  method ReadMessage(little: bool, cfg: Config, msg: Bytes) returns (answer: Outcome<Response>)
    ensures answer == ParseResponse(cfg, msg)
    ensures answer.Ok? ==> WellShaped(answer.value) && ResponseWire(answer.value) == msg
  {
    if msg == [] || |msg| > cfg.MaxSize() {
      return Err("");
    }
    var kind := Objects.ReadKind(little, msg);
    if kind != Ok(KIND_RESPONSE) {
      return Err("");
    }
    answer := Objects.RpcResponse.Parse(little, msg);
    if answer.Ok? {
      ResponseBijection(msg, answer.value);
    }
  }

  /** The call is under way as it was asked for. */
  ghost predicate Admits(s: State, s': State, id: Id)
    requires id in s.queued
  {
    && s'.pending.Keys == s.pending.Keys + {id} && Serves(s.cfg, s.queued[id], s'.pending[id])
    && s'.pending[id].phase == WaitingResponse && s'.pending[id].remainingResends == LimitOf(s.cfg, s.queued[id])
    && (s'.pending[id].timerId.Some? ==> s'.pending[id].timerId.value in s'.timers)
    && s'.stack == s.stack
  }

  /** Nothing is sent, and only the callback of the call is due, with the reason for the refusal. */
  ghost predicate Refuses(s: State, s': State, id: Id)
    requires id in s.queued
  {
    var callback := s.queued[id].callback;
    && s'.pending == s.pending && s'.stack.Push? && s'.stack.below == s.stack
    && s'.stack.top.Callbacks? && s'.stack.top.todo.Keys == {id}
    && if s.status != Connected || !s.up then
         Tells(s'.stack, id, callback, CONNECTION_UNAVAILABLE, NotConnected)
       else if BodyLen(s.queued[id].body) > s.cfg.MaxSize() then
         Tells(s'.stack, id, callback, MESSAGE_TOO_LARGE, TooLarge)
       else
         Tells(s'.stack, id, callback, RESOURCE_EXHAUSTED, TooManyPending)
  }

  /** A call is admitted exactly on a living connection, within both limits. */
  ghost predicate Decides(s: State, s': State, id: Id)
    requires id in s.queued
  {
    if s.status == Connected && s.up && BodyLen(s.queued[id].body) <= s.cfg.MaxSize()
       && (s.cfg.maxPending.Some? ==> |s.pending| < s.cfg.maxPending.value)
    then Admits(s, s', id) else id !in s'.pending && Refuses(s, s', id)
  }

  /** The request is no longer pending, its answer is ignored for a minute, and only its callback is due. */
  ghost predicate GivenUp(s: State, s': State, id: Id, now: nat) {
    && s'.pending == s.pending - {id} && s'.ignored == s.ignored[id := now + 60000]
    && s'.stack.Push? && s'.stack.top.Callbacks? && s'.stack.top.todo.Keys == {id} && s'.stack.below == s.stack
  }

  ghost predicate Overdue(s: State, timer: Timer) {
    timer.kind == RequestTimer && timer.id in s.pending && s.pending[timer.id].phase == WaitingResponse
  }

  ghost predicate WaitsTooLong(s: State, timer: Timer) {
    timer.kind == ReconnectTimer && timer.id in s.pending && s.pending[timer.id].phase == WaitingReconnect
  }

  /** A reconnect wait costs one chance: the last one ends the request, any other sets the timer again. */
  ghost predicate OneChanceLess(s: State, s': State, id: Id)
    requires id in s.pending
  {
    var p := s.pending[id];
    s'.ignored == s.ignored &&
    if p.remainingResends == 1 then
      && s'.pending == s.pending - {id} && Tells(s'.stack, id, p.callback, RECONNECT_TIMEOUT, ReconnectTimedOut)
      && s'.stack.top.todo.Keys == {id} && s'.stack.below == s.stack
    else
      && s'.pending.Keys == s.pending.Keys && s'.stack == s.stack && KeepsTerms(p, s'.pending[id])
      && s'.pending[id].remainingResends == p.remainingResends - 1 && s'.pending[id].phase == WaitingReconnect
      && s'.pending[id].timerId.Some? && s'.pending[id].timerId.value in s'.timers
  }

  /** What a timer does: a request that waited too long for its answer is given up, with a Cancel on a living
      connection; one that waited too long for a reconnect loses a chance; a stale timer does nothing. */
  ghost predicate Elapsed(s: State, s': State, timer: Timer, now: nat, output: Option<Bytes>) {
    if Overdue(s, timer) then
      && output == (if s.conn.Some? && s.up then Some(CancelWire(timer.id)) else None)
      && GivenUp(s, s', timer.id, now)
      && Tells(s'.stack, timer.id, s.pending[timer.id].callback, REQUEST_TIMEOUT, TimedOut)
    else
      && output == None
      && if WaitsTooLong(s, timer) then OneChanceLess(s, s', timer.id)
         else s' == s.(timers := s.timers - {timer})
  }

  /** Not a response, or one for an id the client does not know. */
  ghost predicate Unwanted(s: State, answer: Outcome<Response>) {
    answer.Err? || (answer.value.id !in s.pending && answer.value.id !in s.ignored)
  }

  /** The callback of a pending request is due with exactly this response; an ignored one is dropped, once. */
  ghost predicate Answers(s: State, s': State, r: Response) {
    if r.id in s.pending then
      && s'.pending == s.pending - {r.id} && s'.ignored == s.ignored
      && s'.stack
         == Push(Callbacks(map[r.id := Delivery(s.pending[r.id].callback, r.id, Received(r))], false), s.stack)
      && s'.timers == s.timers - TimersOf(s.pending, {r.id})
    else
      s'.pending == s.pending && s'.ignored == s.ignored - {r.id} && s'.stack == s.stack && s'.timers == s.timers
  }

  /** A lost connection: with budget a request waits for the next one, without its callback is due, in id order. */
  ghost predicate Sorted(s: State, s': State, id: Id, code: u16, notice: Notice) {
    id in s.pending ==>
      var p := s.pending[id];
      if p.phase == WaitingReconnect || (p.allowReconnect && p.remainingResends > 0) then
        && id in s'.pending && s'.pending[id].phase == WaitingReconnect && KeepsTerms(p, s'.pending[id])
        && s'.pending[id].remainingResends == p.remainingResends
      else id !in s'.pending && Tells(s'.stack, id, p.callback, code, notice) && s'.stack.top.ordered
  }

  ghost predicate AllSorted(s: State, s': State, code: u16, notice: Notice) {
    s'.pending.Keys <= s.pending.Keys && forall id :: Sorted(s, s', id, code, notice)
  }

  lemma LossSorts(s: State, code: u16, notice: Notice)
    ensures AllSorted(s, FailDisreconnect(s, code, notice), code, notice)
  {}

  /** The encoding of a request, through the message object. */
  method EncodeBody(little: bool, id: Id, body: Body) returns (output: Option<Bytes>)
    ensures output == if Encodes(body) then Some(RequestWire(MakeRequest(id, body))) else None
  {
    var request := new Objects.RpcRequest(id, body.service, body.methodName, body.payload);
    var encoded := request.Encode(little);
    output := if encoded.Ok? then Some(encoded.value) else None;
  }

  /** What the three loops of `failAllDisreconnectRequests` leave behind, taken together. */
  lemma LoopsTogether(before: map<Id, Pending>, live: set<Timer>, keep: set<Id>, fail: set<Id>, serial: nat,
                      moved: map<Id, Pending>, code: u16, notice: Notice)
    requires keep == (set id | id in before && Keeps(before[id])) && fail == Failing(before)
    requires forall id | id in before && before[id].timerId.Some? :: before[id].timerId.value.serial < serial
    requires moved == map id | id in before :: if id in keep then Awaiting(id, before[id], serial) else before[id]
    ensures moved - fail == Survivors(before, serial)
    ensures Failures(moved, fail, code, notice) == Failures(before, fail, code, notice)
    ensures live - TimersOf(before, keep) + ReconnectTimers(before, keep, serial) - TimersOf(moved, fail)
            == SurvivorTimers(live, before, serial)
  {
    assert TimersOf(moved, fail) == TimersOf(before, fail);
    var response := set id | id in before && before[id].phase == WaitingResponse && before[id].timerId.Some? ::
                      before[id].timerId.value;
    assert response == TimersOf(before, keep) + TimersOf(before, fail) by {
      forall id | id in before && before[id].phase == WaitingResponse
        ensures id in keep || id in fail
      {}
    }
    assert ReconnectTimers(before, keep, serial) !! TimersOf(before, fail);
    assert ReconnectTimers(before, keep, serial)
           == set id | id in before && Keeps(before[id]) ::
               Timer(ReconnectTimer, id, serial, before[id].reconnectTimeout);
  }

  /** The three loops of `failAllDisreconnectRequests`, one after the other. */
  method RunLoops(before: map<Id, Pending>, live: set<Timer>, serial: nat, code: u16, notice: Notice)
    returns (pending: map<Id, Pending>, timers: set<Timer>, callbacks: map<Id, Delivery>)
    requires forall id | id in before && before[id].timerId.Some? :: before[id].timerId.value.serial < serial
    ensures pending == Survivors(before, serial) && timers == SurvivorTimers(live, before, serial)
    ensures callbacks == Failures(before, Failing(before), code, notice)
  {
    var keep, fail := Sort(before);
    var moved, live' := ChangePhase(before, live, keep, serial);
    LoopsTogether(before, live, keep, fail, serial, moved, code, notice);
    pending, timers, callbacks := TakeFailing(moved, live', fail, code, notice);
  }

  class Client {
    const cfg: Config
    const little: bool
    var status: Status
    var conn: Option<Conn>
    var up: bool
    var manual: bool
    var nextId: nat
    var queued: map<Id, Args>
    var pending: map<Id, Pending>
    var ignored: map<Id, nat>
    var timers: set<Timer>
    var serial: nat
    var stack: Stack
    ghost var h: History

    ghost function View(): State
      reads this
    {
      State(cfg, status, conn, up, manual, nextId, queued, pending, ignored, timers, serial, stack, h)
    }

    ghost predicate Valid()
      reads this
    {
      Inv(View())
    }

    constructor (cfg: Config, little: bool)
      requires cfg.Valid()
      ensures Valid() && Init(View()) && this.cfg == cfg && this.little == little
    {
      this.cfg, this.little := cfg, little;
      status, conn, up, manual, nextId := Disconnected, None, false, false, 1;
      queued, pending, ignored, timers, serial, stack := map[], map[], map[], {}, 0, Bottom;
      h := History(map[], [], map[], map[], {}, {}, 0, 0, 0);
      new;
      InitInv(View());
    }

    /** A method that performed a step of the machine leaves the object valid. */
    twostate lemma Performed(e: Event)
      requires old(Valid()) && Enabled(old(View()), e) && View() == Next(old(View()), e)
      ensures Valid()
    {
      StepInv(old(View()), e);
    }

    // ------------------------------------------------------------ call

    /** `call`, on any thread: take an id and hand the rest to the loop. The id is new, and the object stays valid,
        until the counter wraps around. */
    method Call(args: Args) returns (id: Id)
      requires Valid()
      modifies this
      ensures View() == IssueStep(old(View()), args)
      ensures id == if old(nextId) == 0x1_0000_0000_0000_0000 then 0 else old(nextId)
      ensures nextId == id + 1 && queued == old(queued)[id := args] && pending == old(pending)
      ensures old(nextId) <= 0xFFFF_FFFF_FFFF_FFFF ==>
                && Valid() && id !in old(queued) && id !in old(pending) && id !in old(ignored)
                && Fired(h.fired, id) == 0
    {
      var wraps := nextId > 0xFFFF_FFFF_FFFF_FFFF;
      id := if wraps then 0 else nextId;
      assert Good(View(), id);
      nextId := id + 1;
      queued := queued[id := args];
      h := h.(issued := h.issued[id := args.callback]);
      if !wraps {
        Performed(User(Issue(args)));
      }
    }

    /** `callInLoop`. Returns the bytes handed to the connection, if the request is admitted. */
    method CallInLoop(id: Id) returns (output: Option<Bytes>)
      requires Valid() && UserEnabled(View(), StartCall(id))
      modifies this
      ensures Valid() && View() == UserNext(old(View()), StartCall(id))
      ensures output == if id in pending then Some(RequestWire(MakeRequest(id, old(queued)[id].body))) else None
      ensures Decides(old(View()), View(), id)
    {
      assert id !in pending by {
        assert Good(View(), id);
      }
      if BodyLen(queued[id].body) <= cfg.MaxSize() {
        FitsEncodes(cfg, id, queued[id].body);
      }
      output := Start(id);
      Performed(User(StartCall(id)));
    }

    method Start(id: Id) returns (output: Option<Bytes>)
      requires id in queued && id !in pending && Shape(View())
      requires BodyLen(queued[id].body) <= cfg.MaxSize() ==> Encodes(queued[id].body)
      modifies this
      ensures View() == StartCallStep(old(View()), id)
      ensures output == if id in pending then Some(RequestWire(MakeRequest(id, old(queued)[id].body))) else None
      ensures Decides(old(View()), View(), id)
    {
      var args := queued[id];
      var refusal;
      refusal, output := Examine(id, args.body);
      if refusal.Some? {
        queued := queued - {id};
        CallBack(id, args.callback, refusal.value);
      } else {
        Admit(id, args);
      }
    }

    /** The checks of `callInLoop`; changes nothing. */
    method Examine(id: Id, body: Body) returns (refusal: Option<Reply>, output: Option<Bytes>)
      ensures refusal == Refusal(View(), body)
      ensures output == if refusal.None? then Some(RequestWire(MakeRequest(id, body))) else None
    {
      output := None;
      if status == Connected && conn.Some? && up {
        if BodyLen(body) > cfg.MaxSize() {
          return Some(Failed(MESSAGE_TOO_LARGE, TooLarge)), None;
        }
        if cfg.maxPending.Some? && |pending| >= cfg.maxPending.value {
          return Some(Failed(RESOURCE_EXHAUSTED, TooManyPending)), None;
        }
        output := EncodeBody(little, id, body);
        if output.None? {
          return Some(Failed(INTERNAL_ERROR, EncodeError)), None;
        }
        return None, output;
      }
      return Some(Failed(CONNECTION_UNAVAILABLE, NotConnected)), None;
    }

    method Admit(id: Id, args: Args)
      requires conn.Some?
      modifies this
      ensures View() == AdmitStep(old(View()), id, args, old(conn).value)
    {
      var remainingResends := args.resendLimit.ValueOr(cfg.defaultResendLimit);
      var reconnectTimeout, allowReconnect := args.reconnectTimeout, args.allowReconnect;
      if allowReconnect && reconnectTimeout == 0 {
        reconnectTimeout := cfg.defaultReconnectTimeout;
      }
      if remainingResends == 0 {
        allowReconnect := false;
      }
      var p := Pending(args.body, args.callback, args.timeout, allowReconnect, WaitingResponse,
                       remainingResends, reconnectTimeout, None);
      if args.timeout > 0 {
        var timer := Timer(RequestTimer, id, serial, args.timeout);
        timers := timers + {timer};
        p := p.(timerId := Some(timer));
      }
      queued := queued - {id};
      pending := pending[id := p];
      serial := serial + 1;
      h := Admitted(h, id, args.body, args.timeout, remainingResends, conn.value);
    }

    /** Get ready to call one user callback. */
    method CallBack(id: Id, callback: nat, reply: Reply)
      modifies this
      ensures View() == Calling(old(View()), id, callback, reply)
    {
      stack := Push(Callbacks(map[id := Delivery(callback, id, reply)], false), stack);
    }

    // ---------------------------------------------------------- cancel

    method CancelInLoop(id: Id, now: nat) returns (output: Option<Bytes>)
      requires Valid() && UserEnabled(View(), UserEvent.Cancel(id, now))
      modifies this
      ensures Valid() && View() == UserNext(old(View()), UserEvent.Cancel(id, now))
      ensures output == if id in old(pending) && conn.Some? && up then Some(CancelWire(id)) else None
      ensures id !in old(pending) ==> View() == old(View())
      ensures id in old(pending) ==>
                GivenUp(old(View()), View(), id, now) && timers == old(timers) - TimersOf(old(pending), {id})
                && Tells(stack, id, old(pending)[id].callback, REQUEST_CANCELED, Canceled)
    {
      output := None;
      if id in pending {
        if pending[id].timerId.Some? {
          timers := timers - {pending[id].timerId.value};
        }
        output := Abandon(id, now, REQUEST_CANCELED, Canceled);
      }
      Performed(User(UserEvent.Cancel(id, now)));
    }

    method Abandon(id: Id, now: nat, code: u16, notice: Notice) returns (output: Option<Bytes>)
      requires id in pending
      modifies this
      ensures View() == AbandonStep(old(View()), id, now, code, notice)
      ensures output == if conn.Some? && up then Some(CancelWire(id)) else None
    {
      var callback := pending[id].callback;
      pending := pending - {id};
      ignored := ignored[id := now + ONE_MINUTE];
      output := SendCancelMessage(id);
      CallBack(id, callback, Failed(code, notice));
    }

    method SendCancelMessage(id: Id) returns (output: Option<Bytes>)
      modifies this
      ensures View() == SendCancel(old(View()), id)
      ensures output == if conn.Some? && up then Some(CancelWire(id)) else None
    {
      if conn.None? || !up {
        return None;
      }
      var cancel := new Objects.RpcCancel(id);
      var bytes := cancel.Encode(little);
      h := SendOn(h, conn.value, MCancel(id));
      output := Some(bytes);
    }

    // --------------------------------------------------- bulk failures

    method FailAllPendingRequests(code: u16, notice: Notice)
      modifies this
      ensures View() == FailAllPending(old(View()), code, notice)
      ensures pending == map[] && forall id | id in old(pending) ::
                Tells(stack, id, old(pending)[id].callback, code, notice)
    {
      var temp := pending;
      pending := map[];
      var rest := temp.Keys;
      while rest != {}
        invariant rest <= temp.Keys
        invariant View() == old(View()).(pending := map[], timers := timers)
        invariant timers == old(timers) - TimersOf(temp, temp.Keys - rest)
      {
        var id :| id in rest;
        if temp[id].timerId.Some? {
          timers := timers - {temp[id].timerId.value};
        }
        rest := rest - {id};
      }
      assert TimersOf(temp, temp.Keys) == PendingTimers(temp);
      stack := Push(Callbacks(Failures(temp, temp.Keys, code, notice), false), stack);
    }

    method FailAllDisreconnectRequests(code: u16, notice: Notice)
      requires forall id | id in pending && pending[id].timerId.Some? :: pending[id].timerId.value.serial < serial
      modifies this
      ensures View() == FailDisreconnect(old(View()), code, notice)
      ensures AllSorted(old(View()), View(), code, notice)
    {
      var callbacks;
      pending, timers, callbacks := RunLoops(pending, timers, serial, code, notice);
      serial := serial + 1;
      stack := Push(Callbacks(callbacks, true), stack);
      h := h.(ledger := MoveKept(h.ledger, old(pending)));
      LossSorts(old(View()), code, notice);
    }

    // ----------------------------------------------- connection events

    method Connect()
      requires Valid() && CanRunUser(View())
      modifies this
      ensures Valid() && View() == UserNext(old(View()), UserEvent.Connect)
      ensures View() == old(View()).(status := status)
      ensures status == if old(status) == Disconnected then Connecting else old(status)
    {
      if status == Disconnected {
        status := Connecting;
      }
      Performed(User(UserEvent.Connect));
    }

    method Disconnect()
      requires Valid() && CanRunUser(View())
      modifies this
      ensures Valid() && View() == UserNext(old(View()), UserEvent.Disconnect)
      ensures manual && conn == old(conn) && ignored == old(ignored)
      ensures old(status) == Connected ==> status == Disconnecting && pending == old(pending) && stack == old(stack)
      ensures old(status) != Connected ==>
                && status == (if old(status) == Connecting then Disconnected else old(status)) && pending == map[]
                && forall id | id in old(pending) ::
                     Tells(stack, id, old(pending)[id].callback, CONNECTION_CLOSED, Closed)
    {
      manual := true;
      if status != Connected && status != Connecting {
        h := h.(forgot := if status == Disconnecting then h.forgot + pending.Keys else h.forgot);
        FailAllPendingRequests(CONNECTION_CLOSED, Closed);
      } else if status == Connected {
        status := Disconnecting;
      } else if status == Connecting {
        status := Disconnected;
        FailAllPendingRequests(CONNECTION_CLOSED, Closed);
      }
      Performed(User(UserEvent.Disconnect));
    }

    /** `onConnection` for a new connection, up to the user's callback. */
    method OnConnectionUp(c: Conn)
      requires Valid() && LoopEnabled(View(), Up) && c == h.nextConn
      modifies this
      ensures Valid() && View() == LoopNext(old(View()), Up)
      ensures conn == Some(c) && status == Connected && up && !manual
      ensures pending == old(pending) && ignored == old(ignored) && timers == old(timers)
      ensures stack == Push(UserCode, Push(AfterUp(c), old(stack)))
    {
      conn, up := Some(c), true;
      status := Connected;
      manual := false;
      h := h.(nextConn := c + 1, out := h.out[c := []], answered := {}, forgot := {});
      stack := Push(UserCode, Push(AfterUp(c), stack));
      Performed(Loop(Up));
    }

    ghost method TimersArePast()
      requires Valid()
      ensures forall id | id in pending && pending[id].timerId.Some? :: pending[id].timerId.value.serial < serial
    {
      forall id | id in pending && pending[id].timerId.Some?
        ensures pending[id].timerId.value.serial < serial
      {
        assert Good(View(), id);
      }
    }

    /** `onConnection` for a connection that went down, up to the first failure callback. */
    method OnConnectionDown()
      requires Valid() && LoopEnabled(View(), Down)
      modifies this
      ensures Valid() && View() == LoopNext(old(View()), Down)
      ensures status == Disconnected && conn == None && stack.Push? && stack.below == Push(AfterDown, old(stack))
      ensures manual ==>
                pending == map[] && forall id | id in old(pending) ::
                  Tells(stack, id, old(pending)[id].callback, CONNECTION_CLOSED, Closed)
    {
      TimersArePast();
      status := Disconnected;
      conn, up := None, false;
      stack := Push(AfterDown, stack);
      h := h.(answered := {}, forgot := {});
      if manual {
        FailAllPendingRequests(CONNECTION_CLOSED, Closed);
      } else {
        FailAllDisreconnectRequests(CONNECTION_CLOSED, Closed);
      }
      Performed(Loop(Down));
    }

    method OnConnectionError()
      requires Valid() && LoopEnabled(View(), ConnError)
      modifies this
      ensures Valid() && View() == LoopNext(old(View()), ConnError)
      ensures status == Disconnected && conn == None && stack.Push? && stack.below == Push(AfterError, old(stack))
    {
      TimersArePast();
      conn, up := None, false;
      status := Disconnected;
      stack := Push(AfterError, stack);
      FailAllDisreconnectRequests(CONNECTION_UNAVAILABLE, Unavailable);
      Performed(Loop(ConnError));
    }

    // ------------------------------------------------ messages, timers

    /** `onRpcMessage`. Returns whether the connection is closed by force. */
    method OnRpcMessage(msg: Bytes) returns (close: bool)
      requires Valid() && stack.Bottom? && conn.Some?
      modifies this
      ensures Valid() && View() == LoopNext(old(View()), Message(ParseResponse(cfg, msg)))
      ensures close <==> Unwanted(old(View()), ParseResponse(cfg, msg))
      ensures close ==> View() == old(View()).(h := h)
      ensures !close ==> Answers(old(View()), View(), ParseResponse(cfg, msg).value)
    {
      var answer := ReadMessage(little, cfg, msg);
      close := Receive(answer);
      Performed(Loop(Message(answer)));
    }

    method Receive(answer: Outcome<Response>) returns (close: bool)
      modifies this
      ensures View() == MessageStep(old(View()), answer)
      ensures close <==> Unwanted(old(View()), answer)
      ensures close ==> View() == old(View()).(h := h)
      ensures !close ==> Answers(old(View()), View(), answer.value)
    {
      if answer.Err? {
        h := h.(malformedCloses := h.malformedCloses + 1);
        return true;
      }
      var id := answer.value.id;
      if id !in pending {
        if id in ignored {
          ignored := ignored - {id};
          h := h.(answered := h.answered + {id});
          return false;
        }
        h := h.(unknownCloses := h.unknownCloses + 1);
        return true;
      }
      if pending[id].timerId.Some? {
        timers := timers - {pending[id].timerId.value};
      }
      var callback := pending[id].callback;
      pending := pending - {id};
      h := h.(answered := h.answered + {id});
      CallBack(id, callback, Received(answer.value));
      return false;
    }

    /** A timer of the loop fires, stale or not. */
    method OnTimer(timer: Timer, now: nat) returns (output: Option<Bytes>)
      requires Valid() && stack.Bottom?
      modifies this
      ensures Valid() && View() == LoopNext(old(View()), TimerFires(timer, now))
      ensures Elapsed(old(View()), View(), timer, now, output)
    {
      assert Good(View(), timer.id);
      output := RunTimer(timer, now);
      Performed(Loop(TimerFires(timer, now)));
    }

    method RunTimer(timer: Timer, now: nat) returns (output: Option<Bytes>)
      requires WaitsTooLong(View(), timer) ==> pending[timer.id].remainingResends >= 1
      modifies this
      ensures View() == TimerStep(old(View()), timer, now)
      ensures Elapsed(old(View()), View(), timer, now, output)
    {
      output := None;
      timers := timers - {timer};
      match timer.kind {
        case RequestTimer => output := OnRequestTimeout(timer.id, now);
        case ReconnectTimer => OnReconnectTimeout(timer.id);
      }
    }

    method OnRequestTimeout(id: Id, now: nat) returns (output: Option<Bytes>)
      modifies this
      ensures View() == RequestTimeoutStep(old(View()), id, now)
      ensures if id in old(pending) && old(pending)[id].phase == WaitingResponse then
                && output == (if conn.Some? && up then Some(CancelWire(id)) else None)
                && GivenUp(old(View()), View(), id, now)
                && Tells(stack, id, old(pending)[id].callback, REQUEST_TIMEOUT, TimedOut)
              else output == None && View() == old(View())
    {
      if id !in pending || pending[id].phase != WaitingResponse {
        return None;
      }
      output := Abandon(id, now, REQUEST_TIMEOUT, TimedOut);
    }

    method OnReconnectTimeout(id: Id)
      requires id in pending && pending[id].phase == WaitingReconnect ==> pending[id].remainingResends >= 1
      modifies this
      ensures View() == ReconnectTimeoutStep(old(View()), id)
      ensures if id in old(pending) && old(pending)[id].phase == WaitingReconnect then
                OneChanceLess(old(View()), View(), id)
              else View() == old(View())
    {
      if id !in pending || pending[id].phase != WaitingReconnect {
        return;
      }
      var p := pending[id].(remainingResends := Decrement(pending[id].remainingResends));
      h := h.(ledger := CountWait(h.ledger, id));
      if p.remainingResends == 0 {
        pending := pending - {id};
        CallBack(id, p.callback, Failed(RECONNECT_TIMEOUT, ReconnectTimedOut));
        return;
      }
      var timer := Timer(ReconnectTimer, id, serial, p.reconnectTimeout);
      timers := timers + {timer};
      serial := serial + 1;
      pending := pending[id := p.(timerId := Some(timer))];
    }

    method ClearExpiredIgnoredResponseRequests(now: nat)
      requires Valid() && stack.Bottom?
      modifies this
      ensures Valid() && View() == LoopNext(old(View()), Sweep(now))
      ensures ignored == map id | id in old(ignored) && old(ignored)[id] > now :: old(ignored)[id]
      ensures pending == old(pending) && stack == old(stack)
    {
      Expire(now);
      Performed(Loop(Sweep(now)));
    }

    method Expire(now: nat)
      modifies this
      ensures View() == SweepStep(old(View()), now)
    {
      var rest := ignored.Keys;
      while rest != {}
        invariant rest <= ignored.Keys
        invariant ignored == map id | id in old(ignored) && (id in rest || old(ignored)[id] > now) :: old(ignored)[id]
        invariant View() == old(View()).(ignored := ignored)
      {
        var id :| id in rest;
        if ignored[id] <= now {
          ignored := ignored - {id};
        }
        rest := rest - {id};
      }
      assert ignored == Unexpired(old(ignored), now);
      h := h.(forgot := h.forgot + (old(ignored).Keys - ignored.Keys));
    }

    // -------------------------------------- how methods in progress go on

    /** The next callback of a failure loop, or the one callback of another method, starts. */
    method FireCallback(id: Id) returns (d: Delivery)
      requires Valid() && FireEnabled(View(), id)
      modifies this
      ensures Valid() && View() == FrameNext(old(View()), Fire(id))
      ensures d == old(stack).top.todo[id] && d.id == id && Fired(old(h).fired, id) == 0 && Fired(h.fired, id) == 1
      ensures id in h.issued && d.callback == h.issued[id] && WellShaped(Delivered(d)) && Delivered(d).id == id
    {
      var frame := stack.top;
      d := frame.todo[id];
      assert Good(View(), id);
      assert FrameOk(h.issued, frame);
      assert DeliveryOk(h.issued, id, d);
      FiredAppend(h.fired, d, id);
      stack := Push(UserCode, Push(Callbacks(frame.todo - {id}, frame.ordered), stack.below));
      h := h.(fired := h.fired + [d]);
      Performed(Inside(Fire(id)));
    }

    /** One round of the second loop of `checkReconnect`. Returns the bytes handed to the connection. */
    method ResendOne(id: Id) returns (output: Option<Bytes>)
      requires Valid() && ResendEnabled(View(), id)
      modifies this
      ensures Valid() && View() == FrameNext(old(View()), ResendNext(id))
      ensures output.Some? <==> id in old(pending) && old(pending)[id].phase == WaitingReconnect
      ensures output.Some? ==> output.value == RequestWire(MakeRequest(id, old(pending)[id].body))
      ensures output.None? ==> pending == old(pending)
      ensures output.Some? ==>
                && pending.Keys == old(pending).Keys && KeepsTerms(old(pending)[id], pending[id])
                && pending[id].phase == WaitingResponse
                && pending[id].remainingResends == old(pending)[id].remainingResends - 1
                && (pending[id].timerId.Some? ==> pending[id].timerId.value in timers)
    {
      output := None;
      var c := stack.top.conn;
      assert Good(View(), id) && cfg.Valid();
      stack := Push(Frame.Resend(c, stack.top.ids - {id}), stack.below);
      if id in pending && pending[id].phase == WaitingReconnect {
        FitsEncodes(cfg, id, pending[id].body);
        output := Resend(id, c);
      }
      Performed(Inside(ResendNext(id)));
    }

    method Resend(id: Id, c: Conn) returns (output: Option<Bytes>)
      requires id in pending
      modifies this
      ensures View() == ResendStep(old(View()), id, c)
      ensures output == if Encodes(old(pending)[id].body) then Some(RequestWire(MakeRequest(id, old(pending)[id].body)))
                        else None
    {
      var p := pending[id];
      if p.timerId.Some? {
        timers := timers - {p.timerId.value};
      }
      p := p.(remainingResends := Decrement(p.remainingResends), phase := WaitingResponse, timerId := None);
      output := EncodeBody(little, id, p.body);
      if output.None? {
        pending := pending - {id};
        CallBack(id, p.callback, Failed(INTERNAL_ERROR, EncodeCapacity));
        return;
      }
      SendAgain(id, p, c);
    }

    method SendAgain(id: Id, p: Pending, c: Conn)
      modifies this
      ensures View() == Rearmed(old(View()), id, p, c)
    {
      var p' := p.(timerId := None);
      if p.requestTimeout > 0 {
        var timer := Timer(RequestTimer, id, serial, p.requestTimeout);
        timers := timers + {timer};
        p' := p'.(timerId := Some(timer));
      }
      serial := serial + 1;
      pending := pending[id := p'];
      h := SendOn(h, c, MRequest(MakeRequest(id, p.body))).(ledger := CountResend(h.ledger, id, c));
    }

    /** User code returns, or a loop is over, and the method below goes on to its next callback. */
    method Continue()
      requires Valid() && ResumeEnabled(View())
      modifies this
      ensures Valid() && View() == FrameNext(old(View()), Resume)
      ensures pending == old(pending) && status == old(status) && conn == old(conn)
      ensures ignored == if old(stack).top.AfterDown? || old(stack).top.AfterError? then map[] else old(ignored)
      ensures old(stack).top.AfterUp? && conn == Some(old(stack).top.conn) ==>
                stack.Push? && stack.top.Resend? && stack.top.conn == conn.value
                && forall id :: id in stack.top.ids <==> id in pending && pending[id].phase == WaitingReconnect
    {
      match stack.top {
        case AfterUp(c) =>
          if conn == Some(c) {
            var ids := CollectWaiting(pending);
            forall id | id in pending && pending[id].phase == WaitingReconnect
              ensures id in ids
            {
              assert Good(View(), id);
            }
            stack := Push(Frame.Resend(c, ids), stack.below);
          } else {
            stack := stack.below;
          }
        case AfterDown =>
          ignored := map[];
          stack := Push(UserCode, stack.below);
        case AfterError =>
          ignored := map[];
          stack := Push(UserCode, stack.below);
        case _ =>
          stack := stack.below;
      }
      Performed(Inside(Resume));
    }
  }
}
