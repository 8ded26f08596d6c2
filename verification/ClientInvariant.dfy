/** The invariant of the client machine, and the proof that every event keeps it: at every point where
    user code may run, and between any two of its nested calls. */
module ClientInvariant {
  import opened RpcMessage
  import opened ClientModel

  // ---------------------------------------------------------------- counting

  function One(b: bool): nat { if b then 1 else 0 }

  /** How many callbacks for `id` are waiting in methods in progress. */
  function Held(stack: Stack, id: Id): nat {
    match stack
    case Bottom => 0
    case Push(top, below) => One(top.Callbacks? && id in top.todo) + Held(below, id)
  }

  /** How often the callback of `id` has been called. */
  function Fired(fired: seq<Delivery>, id: Id): nat {
    if fired == [] then 0
    else Fired(fired[..|fired| - 1], id) + One(fired[|fired| - 1].id == id)
  }

  /** How many Request messages for `id` are among `msgs`. */
  function Requests(msgs: seq<Msg>, id: Id): nat {
    if msgs == [] then 0
    else Requests(msgs[..|msgs| - 1], id) + One(IsRequest(msgs[|msgs| - 1], id))
  }

  predicate IsRequest(m: Msg, id: Id) {
    m.MRequest? && m.request.id == id
  }

  lemma FiredAppend(fired: seq<Delivery>, d: Delivery, id: Id)
    ensures Fired(fired + [d], id) == Fired(fired, id) + One(d.id == id)
  {
    assert (fired + [d])[..|fired|] == fired;
  }

  lemma RequestsAppend(msgs: seq<Msg>, m: Msg, id: Id)
    ensures Requests(msgs + [m], id) == Requests(msgs, id) + One(IsRequest(m, id))
  {
    assert (msgs + [m])[..|msgs|] == msgs;
  }

  // --------------------------------------------------------------- predicates

  /** A method that lost the connection is still in progress. */
  predicate Closing(stack: Stack) {
    stack.Push? && (stack.top.AfterDown? || stack.top.AfterError? || Closing(stack.below))
  }

  ghost predicate Shape(s: State) {
    && s.cfg.Valid()
    && 1 <= s.nextId <= 0x1_0000_0000_0000_0000
    && (s.conn.Some? <==> s.status == Connected || s.status == Disconnecting)
    && (s.manual ==> s.status != Connected)
    && (s.up ==> s.conn.Some?)
    && (s.conn.Some? ==> s.conn.value < s.h.nextConn)
    && (Closing(s.stack) ==> s.conn.None?)
  }

  ghost predicate SizeOk(s: State) {
    s.cfg.maxPending.Some? ==> |s.pending| <= s.cfg.maxPending.value
  }

  predicate InRange(s: State, id: Id) {
    1 <= id < s.nextId
  }

  /** Phase, connection and timer of one pending request, and the balance of its resend budget. */
  ghost predicate EntryOk(s: State, id: Id, p: Pending, l: Ledger) {
    && p.body == l.body && p.requestTimeout == l.timeout
    && l.resends + l.waits + p.remainingResends == l.limit
    && l.moves == 2 * l.resends + One(p.phase == WaitingReconnect)
    && (p.allowReconnect ==> p.reconnectTimeout > 0)
    && (p.timerId.Some? ==> p.timerId.value.id == id && p.timerId.value.serial < s.serial)
    && match p.phase
       case WaitingReconnect =>
         && p.allowReconnect && p.remainingResends >= 1
         && p.timerId.Some? && p.timerId.value.kind == ReconnectTimer
         && p.timerId.value.after == p.reconnectTimeout
         && (s.conn.Some? ==> s.conn.value !in l.sentOn)
       case WaitingResponse =>
         && s.conn.Some? && s.conn.value in l.sentOn
         && (p.timerId.Some? <==> p.requestTimeout > 0)
         && (p.timerId.Some? ==> p.timerId.value.kind == RequestTimer && p.timerId.value.after == p.requestTimeout)
  }

  ghost predicate PendingOk(s: State, id: Id) {
    id in s.pending ==> id in s.h.ledger && EntryOk(s, id, s.pending[id], s.h.ledger[id])
  }

  ghost predicate LedgerOk(s: State, id: Id) {
    id in s.h.ledger ==>
      var l := s.h.ledger[id];
      && InRange(s, id) && id !in s.queued
      && BodyLen(l.body) <= s.cfg.MaxSize()
      && |l.sentOn| == 1 + l.resends
      && l.resends + l.waits <= l.limit < 256
      && l.moves <= 2 * l.resends + 1
      && (forall c | c in l.sentOn :: c < s.h.nextConn)
  }

  /** The id is in exactly one place: queued, pending, about to be called back, or called back. */
  ghost predicate PlaceOk(s: State, id: Id) {
    One(id in s.queued) + One(id in s.pending) + Held(s.stack, id) + Fired(s.h.fired, id) == One(InRange(s, id))
  }

  ghost predicate CallbackOk(s: State, id: Id) {
    && (id in s.h.issued <==> InRange(s, id))
    && (id in s.queued ==> InRange(s, id) && s.queued[id].callback == s.h.issued[id])
    && (id in s.pending ==> InRange(s, id) && s.pending[id].callback == s.h.issued[id])
  }

  ghost predicate IgnoredOk(s: State, id: Id) {
    && (id in s.ignored ==> InRange(s, id) && id !in s.pending && id !in s.queued)
    && (id in s.h.forgot ==> InRange(s, id) && id !in s.pending && id !in s.queued && id !in s.ignored)
  }

  /** A request sent on the current connection is still tracked, or was answered, or was deliberately forgotten. */
  ghost predicate TrackedOk(s: State, id: Id) {
    s.conn.Some? && id in s.h.ledger && s.conn.value in s.h.ledger[id].sentOn ==>
      id in s.pending || id in s.ignored || id in s.h.answered || id in s.h.forgot
  }

  ghost predicate Good(s: State, id: Id) {
    PendingOk(s, id) && LedgerOk(s, id) && PlaceOk(s, id) && CallbackOk(s, id) && IgnoredOk(s, id) && TrackedOk(s, id)
  }

  ghost predicate ReplyOk(id: Id, reply: Reply) {
    match reply
    case Received(r) => r.id == id && WellShaped(r)
    case Failed(code, _) => NO_ERROR < code < ERROR_CODE_CNT
  }

  /** The callback of `id` is called with a reply that concerns it. */
  ghost predicate DeliveryOk(issued: map<Id, nat>, id: Id, d: Delivery) {
    id in issued && d.callback == issued[id] && d.id == id && ReplyOk(id, d.reply)
  }

  ghost predicate FrameOk(issued: map<Id, nat>, f: Frame) {
    f.Callbacks? ==> forall id | id in f.todo :: DeliveryOk(issued, id, f.todo[id])
  }

  ghost predicate StackOk(issued: map<Id, nat>, stack: Stack) {
    stack.Push? ==> FrameOk(issued, stack.top) && StackOk(issued, stack.below)
  }

  ghost predicate FiredOk(issued: map<Id, nat>, fired: seq<Delivery>) {
    forall i | 0 <= i < |fired| :: DeliveryOk(issued, fired[i].id, fired[i])
  }

  /** On each connection a request is sent once if the ledger says so, and never otherwise. */
  ghost predicate OutOk(h: History, c: Conn, id: Id) {
    Requests(Sent(h, c), id) == One(id in h.ledger && c in h.ledger[id].sentOn)
  }

  /** Every copy of a request is the admitted one. */
  ghost predicate CopyOk(h: History, m: Msg) {
    m.MRequest? ==> m.request.id in h.ledger && m.request == MakeRequest(m.request.id, h.ledger[m.request.id].body)
  }

  ghost predicate CopiesOk(h: History, c: Conn) {
    forall i | 0 <= i < |Sent(h, c)| :: CopyOk(h, Sent(h, c)[i])
  }

  ghost predicate OutInv(h: History) {
    && (forall c, id :: OutOk(h, c, id))
    && (forall c :: CopiesOk(h, c))
    && (forall c | c in h.out :: c < h.nextConn)
  }

  ghost predicate Inv(s: State) {
    && Shape(s) && SizeOk(s)
    && (forall id :: Good(s, id))
    && StackOk(s.h.issued, s.stack) && FiredOk(s.h.issued, s.h.fired)
    && OutInv(s.h)
  }

  lemma InitInv(s: State)
    requires Init(s)
    ensures Inv(s)
  {
    assert forall id :: Good(s, id);
    assert forall c, id :: OutOk(s.h, c, id);
    assert forall c :: CopiesOk(s.h, c);
  }

  // ------------------------------------------------- facts about larger pieces

  lemma {:induction false} StackOkGrows(issued: map<Id, nat>, more: map<Id, nat>, stack: Stack)
    requires StackOk(issued, stack) && forall id | id in issued :: id in more && more[id] == issued[id]
    ensures StackOk(more, stack)
  {
    if stack.Push? {
      StackOkGrows(issued, more, stack.below);
    }
  }

  /** A request that fits the size limit encodes: both encode-error branches are dead. */
  lemma FitsEncodes(cfg: Config, id: Id, body: Body)
    requires cfg.Valid() && BodyLen(body) <= cfg.MaxSize()
    ensures Encodes(body) && EncodeRequest(MakeRequest(id, body)) == Ok(RequestWire(MakeRequest(id, body)))
  {}

  /** Sending a cancel adds no request. */
  lemma CancelKeepsOut(h: History, c: Conn, id: Id)
    requires OutInv(h) && c < h.nextConn
    ensures OutInv(SendOn(h, c, MCancel(id)))
  {
    var h' := SendOn(h, c, MCancel(id));
    forall d, j
      ensures OutOk(h', d, j)
    {
      assert OutOk(h, d, j);
      RequestsAppend(Sent(h, c), MCancel(id), j);
    }
    forall d, i | 0 <= i < |Sent(h', d)|
      ensures CopyOk(h', Sent(h', d)[i])
    {
      assert CopiesOk(h, d);
      if i < |Sent(h, d)| {
        assert CopyOk(h, Sent(h, d)[i]);
      }
    }
    assert forall d :: CopiesOk(h', d);
  }

  /** Sending a request that the ledger now records for this connection keeps the account. */
  lemma RequestKeepsOut(h: History, c: Conn, id: Id, l: Ledger)
    requires OutInv(h) && c < h.nextConn && c in l.sentOn
    requires id in h.ledger ==>
               c !in h.ledger[id].sentOn && l.body == h.ledger[id].body && l.sentOn == h.ledger[id].sentOn + {c}
    requires id !in h.ledger ==> l.sentOn == {c}
    ensures OutInv(SendOn(h, c, MRequest(MakeRequest(id, l.body))).(ledger := h.ledger[id := l]))
  {
    var m := MRequest(MakeRequest(id, l.body));
    var h' := SendOn(h, c, m).(ledger := h.ledger[id := l]);
    forall d, j
      ensures OutOk(h', d, j)
    {
      assert OutOk(h, d, j);
      RequestsAppend(Sent(h, c), m, j);
    }
    forall d, i | 0 <= i < |Sent(h', d)|
      ensures CopyOk(h', Sent(h', d)[i])
    {
      assert CopiesOk(h, d);
      if i < |Sent(h, d)| {
        assert CopyOk(h, Sent(h, d)[i]);
      }
    }
    assert forall d :: CopiesOk(h', d);
  }

  /** The accounts do not look at budgets: a ledger with the same bodies and connections is as good. */
  lemma SameBooksKeepOut(h: History, h': History)
    requires OutInv(h) && h'.out == h.out && h'.nextConn == h.nextConn && h'.ledger.Keys == h.ledger.Keys
    requires forall id | id in h.ledger ::
               h'.ledger[id].body == h.ledger[id].body && h'.ledger[id].sentOn == h.ledger[id].sentOn
    ensures OutInv(h')
  {
    forall c, id
      ensures OutOk(h', c, id)
    {
      assert OutOk(h, c, id);
    }
    forall c, i | 0 <= i < |Sent(h', c)|
      ensures CopyOk(h', Sent(h', c)[i])
    {
      assert CopiesOk(h, c);
      assert CopyOk(h, Sent(h, c)[i]);
    }
    assert forall c :: CopiesOk(h', c);
  }
}
