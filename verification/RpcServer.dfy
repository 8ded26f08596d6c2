/** The `RpcServer` object as far as requests and replies go: `onRpcMessage`, `invokeAsyncHandler` with its reply
    closure, and the clean-up when a connection goes down. It works on the registry object and on bytes; every
    method is proved to be the step of the same name in `EndToEnd`. */
module RpcServer {
  import opened ByteOrder
  import opened Options
  import opened RpcMessage
  import opened ServerReply
  import opened EndToEnd
  import C = ClientModel
  import R = CancellationRegistry
  import Objects = RpcMessageObjects

  /** What becomes of the connection the message came from. */
  datatype Reaction = Silent | ForceClose | Respond(id: Id, kind: AnswerKind, sent: Sent)

  predicate ReachesPeer(reaction: Reaction, connected: bool) {
    connected && reaction.Respond? && reaction.sent.Frame?
  }

  ghost predicate ReactionOk(reaction: Reaction, maxSize: nat) {
    reaction.Respond? ==> reaction.sent == Send(reaction.id, ResultOf(reaction.kind), maxSize)
  }

  // ------------------------------------------- tokens are numbered executions

  ghost function Plain(active: map<R.Key, R.Token>): map<R.Key, Exec> {
    map k | k in active :: active[k].serial
  }

  ghost function Serials(tokens: set<R.Token>): set<Exec> {
    set t | t in tokens :: t.serial
  }

  lemma PlainRegister(active: map<R.Key, R.Token>, k: R.Key, t: R.Token)
    ensures Plain(active[k := t]) == Plain(active)[k := t.serial] && Plain(active).Keys == active.Keys
  {}

  /** What the registry operations mean for the numbered tokens. */
  lemma PlainCancel(b: R.Book, limits: R.Limits, c: Conn, id: Id)
    requires R.Refines(b.nested, b.active)
    ensures var k, b' := R.Key(c, id), R.Apply(b, limits, R.Op.Cancel(c, id));
            if k in b.active then
              && Plain(b'.active) == R.RemoveFrom(Plain(b.active), k)
              && b'.canceled == b.canceled + {b.active[k]}
              && Serials(b'.canceled) == Serials(b.canceled) + {b.active[k].serial}
              && b'.issued == b.issued
            else b' == b
  {
    assert R.Agree(b.nested, b.active, c, id);
  }

  lemma PlainTake(b: R.Book, limits: R.Limits, k: R.Key)
    requires R.Refines(b.nested, b.active)
    ensures var b' := R.Apply(b, limits, R.Op.Take(k.conn, k.id));
            && Plain(b'.active) == R.RemoveFrom(Plain(b.active), k)
            && b'.canceled == b.canceled && b'.issued == b.issued
  {
    assert k == R.Key(k.conn, k.id);
    assert R.Agree(b.nested, b.active, k.conn, k.id);
    assert k !in b.active ==> R.RemoveFrom(Plain(b.active), k) == Plain(b.active);
  }

  /** A token that is not cancelled shares its number with no cancelled one. */
  lemma NumberedApart(issued: set<R.Token>, canceled: set<R.Token>, execs: map<Exec, ExecInfo>, t: R.Token)
    requires Numbered(issued, execs) && Numbered(canceled, execs) && t in issued
    ensures t.serial in Serials(canceled) <==> t in canceled
  {
    if t.serial in Serials(canceled) {
      var t' :| t' in canceled && t'.serial == t.serial;
      assert t' == t;
    }
  }

  lemma PlainDown(b: R.Book, limits: R.Limits, c: Conn)
    requires R.Refines(b.nested, b.active)
    ensures var b' := R.Apply(b, limits, R.Clear(c));
            && Plain(b'.active) == R.ClearIn(Plain(b.active), c)
            && b'.canceled == b.canceled + R.Flags(b.active, c)
            && Serials(b'.canceled) == Serials(b.canceled) + Dropped(b.active, c)
            && b'.issued == b.issued
  {
    R.ClearRefines(b.nested, b.active, c);
    if c !in b.nested {
      assert R.Flags(b.active, c) == {} by {
        forall k | k in b.active
          ensures k.conn != c
        {
          assert k in R.ClearIn(b.active, c);
        }
      }
    }
    assert Serials(R.Flags(b.active, c)) == Dropped(b.active, c);
  }

  ghost function Dropped(active: map<R.Key, R.Token>, c: Conn): set<Exec> {
    set k | k in active && k.conn == c :: active[k].serial
  }

  lemma DroppedIsCleared(srv: Server, active: map<R.Key, R.Token>, c: Conn)
    requires srv.active == Plain(active)
    ensures Cleared(srv, c) == Dropped(active, c)
  {}

  /** Every token is the one made for its execution. */
  ghost predicate Numbered(tokens: set<R.Token>, execs: map<Exec, ExecInfo>) {
    forall t | t in tokens :: t.serial in execs && t.owner == execs[t.serial].key
  }

  ghost predicate Below(execs: map<Exec, ExecInfo>, next: Exec) {
    forall e | e in execs :: e < next
  }

  /** The bytes of a message, as `onRpcMessage` reads them. */
  method ReadIncoming(little: bool, maxSize: nat, msg: Bytes) returns (incoming: Incoming)
    ensures incoming == ServerParse(maxSize, msg)
  {
    if msg == [] || |msg| > maxSize {
      return Unusable;
    }
    var kind := Objects.ReadKind(little, msg);
    if kind.Err? {
      return Unusable;
    }
    if kind.value == KIND_CANCEL {
      var cancel := new Objects.RpcCancel(0);
      var res := cancel.Decode(little, msg);
      return if res.Ok? then CancelFor(res.value) else Unusable;
    }
    if kind.value != KIND_REQUEST {
      return Unusable;
    }
    var res := Objects.RpcRequest.Parse(little, msg);
    return if res.Ok? then RequestFor(res.value) else Unusable;
  }

  /** The server acts on exactly the byte strings within its limit that encode a request or a cancel, and closes the
      connection on every other. */
  lemma ReadsExactly(maxSize: nat, msg: Bytes)
    ensures forall r :: ServerParse(maxSize, msg) == RequestFor(r) <==>
                          |msg| <= maxSize && RequestEncodable(r) && msg == RequestWire(r)
    ensures forall id :: ServerParse(maxSize, msg) == CancelFor(id) <==> |msg| <= maxSize && msg == CancelWire(id)
  {
    forall r: Request
      ensures ServerParse(maxSize, msg) == RequestFor(r) <==>
                |msg| <= maxSize && RequestEncodable(r) && msg == RequestWire(r)
    {
      RequestBijection(msg, r);
      HeadNamesDecoder(msg);
    }
    forall id: Id
      ensures ServerParse(maxSize, msg) == CancelFor(id) <==> |msg| <= maxSize && msg == CancelWire(id)
    {
      CancelBijection(msg, id);
      HeadNamesDecoder(msg);
    }
  }

  /** The peer is told that there is no such method. */
  predicate NotFound(reaction: Reaction, id: Id, maxSize: nat) {
    reaction.Respond? && reaction.id == id
    && reaction.sent == Send(id, Failure(METHOD_NOT_FOUND, "service or method not exist"), maxSize)
  }

  /** The peer gets the handler's sanitised result. */
  predicate Tells(reaction: Reaction, id: Id, outcome: HandlerOutcome, maxSize: nat) {
    reaction.Respond? && reaction.id == id && reaction.sent == Send(id, Sanitised(outcome), maxSize)
  }

  /** The pair is active already: the connection is closed; a limit is reached: the peer is told so; otherwise the
      handler runs and nothing is sent yet. */
  ghost predicate Starts(reaction: Reaction, active: map<R.Key, Exec>, limits: R.Limits, key: R.Key, maxSize: nat) {
    if key in active then reaction == ForceClose
    else if (limits.total.Some? && |active| >= limits.total.value)
            || (limits.perConn.Some? && |R.On(active.Keys, key.conn)| >= limits.perConn.value) then
      && reaction.Respond? && reaction.id == key.id
      && reaction.sent == Send(key.id, Failure(RESOURCE_EXHAUSTED, "server request limit reached"), maxSize)
    else reaction == Silent
  }

  /** What a request is answered with at once. */
  ghost predicate Serves(
    reaction: Reaction, cfg: ServerConfig, active: map<R.Key, Exec>, c: Conn, r: Request, outcome: HandlerOutcome)
  {
    if (r.service, r.methodName) in cfg.sync then Tells(reaction, r.id, outcome, cfg.maxSize)
    else if (r.service, r.methodName) in cfg.async then
      Starts(reaction, active, cfg.limits, R.Key(c, r.id), cfg.maxSize)
    else NotFound(reaction, r.id, cfg.maxSize)
  }

  /** What becomes of the connection: closed on anything unusable, silent on a cancel. */
  ghost predicate Reacts(
    reaction: Reaction, cfg: ServerConfig, active: map<R.Key, Exec>, c: Conn, incoming: Incoming,
    outcome: HandlerOutcome)
  {
    match incoming
    case Unusable => reaction == ForceClose
    case CancelFor(_) => reaction == Silent
    case RequestFor(r) => Serves(reaction, cfg, active, c, r, outcome)
  }

  /** For the bytes of a message the client encoded, handling them is receiving that message. */
  lemma HandlesWhatWasSent(srv: Server, c: Conn, m: C.Msg, outcome: HandlerOutcome, ok: bool)
    requires c in srv.read && (m.MRequest? ==> RequestEncodable(m.request))
    ensures HandleStep(ReadOne(srv, c), c, ServerParse(srv.cfg.maxSize, Wire(m)), outcome, ok)
            == RecvStep(srv, c, m, outcome, ok)
  {
    ServerReadsWhatWasSent(srv.cfg.maxSize, m);
  }

  class AsyncServer {
    const cfg: ServerConfig
    const little: bool
    const registry: R.Registry
    var execs: map<Exec, ExecInfo>
    var nextExec: Exec
    var posted: map<Exec, HandlerOutcome>
    ghost var read: map<Conn, nat>
    ghost var closed: set<Conn>
    ghost var sent: map<Conn, seq<Answer>>
    ghost var fates: map<Exec, Fate>
    ghost var duplicates: nat
    ghost var first: map<Exec, HandlerOutcome>

    ghost function View(): Server
      reads this, registry
    {
      Server(cfg, Plain(registry.active), Serials(registry.canceled), execs, nextExec, posted,
             read, closed, sent, fates, duplicates, first)
    }

    ghost predicate Valid()
      reads this, registry
    {
      && registry.Valid() && registry.limits == cfg.limits && 0 < cfg.maxSize <= MAX_MESSAGE_SIZE
      && Numbered(registry.issued, execs) && Numbered(registry.canceled, execs) && Below(execs, nextExec)
    }

    constructor (cfg: ServerConfig, little: bool)
      requires cfg.limits.Valid() && 0 < cfg.maxSize <= MAX_MESSAGE_SIZE
      ensures Valid() && fresh(registry)
      ensures View() == Server(cfg, map[], {}, map[], 0, map[], map[], {}, map[], map[], 0, map[])
    {
      this.cfg, this.little := cfg, little;
      registry := new R.Registry(cfg.limits);
      execs, nextExec, posted := map[], 0, map[];
      read, closed, sent, fates, duplicates, first := map[], {}, map[], map[], 0, map[];
    }

    /** The transport accepted a connection: nothing of it has been read, nothing sent. */
    method OnConnectionUp(c: Conn)
      requires Valid()
      modifies this
      ensures Valid() && View() == Accepted(old(View()), c)
    {
      read, sent := read[c := 0], sent[c := []];
    }

    ghost method Log(c: Conn, a: Answer, ok: bool)
      modifies this`sent
      ensures View() == Answered(old(View()), c, a, ok)
    {
      if ok && c in sent {
        sent := sent[c := sent[c] + [a]];
      }
    }

    /** `onRpcMessage`. `outcome` is what a synchronous handler does, if one is called. */
    method OnRpcMessage(c: Conn, msg: Bytes, outcome: HandlerOutcome, connected: bool) returns (reaction: Reaction)
      requires Valid() && c in read
      modifies this, registry
      ensures Valid() && ReactionOk(reaction, cfg.maxSize)
      ensures View() == HandleStep(ReadOne(old(View()), c), c, ServerParse(cfg.maxSize, msg), outcome,
                                   ReachesPeer(reaction, connected))
      ensures Reacts(reaction, cfg, old(View()).active, c, ServerParse(cfg.maxSize, msg), outcome)
    {
      read := read[c := read[c] + 1];
      assert View() == ReadOne(old(View()), c);
      var incoming := ReadIncoming(little, cfg.maxSize, msg);
      reaction := Handle(c, incoming, outcome, connected);
    }

    method Handle(c: Conn, incoming: Incoming, outcome: HandlerOutcome, connected: bool) returns (reaction: Reaction)
      requires Valid()
      modifies this, registry
      ensures Valid() && ReactionOk(reaction, cfg.maxSize)
      ensures View() == HandleStep(old(View()), c, incoming, outcome, ReachesPeer(reaction, connected))
      ensures Reacts(reaction, cfg, old(View()).active, c, incoming, outcome)
    {
      match incoming
      case Unusable => reaction := ForceClose;
      case CancelFor(id) =>
        CancelAsync(c, id);
        reaction := Silent;
      case RequestFor(r) =>
        reaction := Dispatch(c, r, outcome, connected);
    }

    method Dispatch(c: Conn, r: Request, outcome: HandlerOutcome, connected: bool) returns (reaction: Reaction)
      requires Valid()
      modifies this, registry
      ensures Valid() && ReactionOk(reaction, cfg.maxSize)
      ensures View() == RequestStep(old(View()), c, r, outcome, ReachesPeer(reaction, connected))
      ensures Serves(reaction, cfg, old(View()).active, c, r, outcome)
    {
      if (r.service, r.methodName) in cfg.sync {
        var bytes := InvokeSyncHandler(little, r.id, outcome, Some(cfg.maxSize));
        reaction := Respond(r.id, Handler(outcome), bytes);
        Log(c, Answer(r.id, Handler(outcome), None), ReachesPeer(reaction, connected));
      } else if (r.service, r.methodName) in cfg.async {
        reaction := InvokeAsyncHandler(c, r.id, connected);
      } else {
        var bytes := SendResponse(little, r.id, ResultOf(MethodNotFound), Some(cfg.maxSize));
        reaction := Respond(r.id, MethodNotFound, bytes);
        Log(c, Answer(r.id, MethodNotFound, None), ReachesPeer(reaction, connected));
      }
    }

    /** Make a token for the request and try to register it. */
    method Enroll(key: R.Key) returns (status: R.RegisterStatus)
      requires Valid()
      modifies this`execs, this`nextExec, registry
      ensures Valid() && status == R.StatusOf(old(View()).active.Keys, cfg.limits, key)
      ensures View() == if status == R.Registered then Enrolled(old(View()), key) else old(View())
    {
      var token := R.Token(key, nextExec);
      PlainRegister(registry.active, key, token);
      assert R.Fresh(registry.View(), R.Register(key.conn, key.id, token));
      status := registry.RegisterToken(key.conn, key.id, token);
      if status == R.Registered {
        execs := execs[nextExec := ExecInfo(key, false)];
        nextExec := nextExec + 1;
      }
    }

    /** `invokeAsyncHandler` up to handing the handler to the pool or the loop. */
    method InvokeAsyncHandler(c: Conn, id: Id, connected: bool) returns (reaction: Reaction)
      requires Valid()
      modifies this, registry
      ensures Valid() && ReactionOk(reaction, cfg.maxSize)
      ensures View() == AsyncStep(old(View()), c, id, ReachesPeer(reaction, connected))
      ensures Starts(reaction, old(View()).active, cfg.limits, R.Key(c, id), cfg.maxSize)
    {
      var status := Enroll(R.Key(c, id));
      if status == R.Registered {
        reaction := Silent;
      } else if status == R.DuplicateRequestId {
        duplicates := duplicates + 1;
        reaction := ForceClose;
      } else {
        var bytes := SendResponse(little, id, ResultOf(LimitReached), Some(cfg.maxSize));
        reaction := Respond(id, LimitReached, bytes);
        Log(c, Answer(id, LimitReached, None), ReachesPeer(reaction, connected));
      }
    }

    method CancelAsync(c: Conn, id: Id)
      requires Valid()
      modifies this, registry
      ensures Valid() && View() == CancelStep(old(View()), R.Key(c, id))
      ensures registry.active == old(registry.active) - {R.Key(c, id)}
      ensures R.Key(c, id) in old(registry.active) ==> old(registry.active)[R.Key(c, id)] in registry.canceled
    {
      var key := R.Key(c, id);
      PlainCancel(registry.View(), registry.limits, c, id);
      if key in registry.active {
        assert R.Live(registry.View(), key, registry.active[key]);
        fates := fates[registry.active[key].serial := CanceledByClient];
      }
      registry.Cancel(c, id);
    }

    /** The reply closure: `repliedFlag->exchange(true)`, then post to the connection's loop if the connection lives. */
    method Reply(e: Exec, outcome: HandlerOutcome, alive: bool)
      requires Valid() && e in execs
      modifies this
      ensures Valid() && View() == ReplyStep(old(View()), e, outcome, alive)
      ensures e in execs && execs[e].replied && execs[e].key == old(execs)[e].key
      ensures posted == if alive && !old(execs)[e].replied then old(posted)[e := outcome] else old(posted)
    {
      first := if e in first then first else first[e := outcome];
      if execs[e].replied {
        return;
      }
      execs := execs[e := execs[e].(replied := true)];
      if alive {
        posted := posted[e := outcome];
      }
    }

    /** `take` by connection and id. Returns whether there was an uncancelled token. */
    method TakeToken(key: R.Key) returns (found: bool)
      requires Valid()
      modifies this`fates, registry
      ensures Valid()
      ensures found <==> key in old(View()).active && old(View()).active[key] !in old(View()).canceled
      ensures View() == Taken(old(View()), key)
    {
      PlainTake(registry.View(), registry.limits, key);
      if key in registry.active {
        assert R.Live(registry.View(), key, registry.active[key]);
        fates := fates[registry.active[key].serial := TakenByReply];
      }
      var token := registry.Take(key.conn, key.id);
      found := token.Some? && token.value !in registry.canceled;
      if token.Some? {
        NumberedApart(registry.issued, registry.canceled, execs, token.value);
      }
    }

    /** The posted part of the reply: `take`, and send unless the token is gone or cancelled. `alive` says whether
        the registry and the size setting could be locked. */
    method RunPosted(e: Exec, alive: bool, connected: bool) returns (reaction: Reaction)
      requires Valid() && e in posted && e in execs
      modifies this, registry
      ensures Valid() && ReactionOk(reaction, cfg.maxSize)
      ensures View() == if alive then RunPostedStep(old(View()), e, ReachesPeer(reaction, connected))
                        else DropPostedStep(old(View()), e)
      ensures if alive && execs[e].key in old(View()).active
                 && old(View()).active[execs[e].key] !in old(View()).canceled
              then Tells(reaction, execs[e].key.id, old(posted)[e], cfg.maxSize)
              else reaction == Silent
      ensures posted == old(posted) - {e} && execs == old(execs)
    {
      var key, outcome := execs[e].key, posted[e];
      posted := posted - {e};
      if !alive {
        return Silent;
      }
      var found := TakeToken(key);
      if !found {
        return Silent;
      }
      var bytes := SendFramedData(little, key.id, Sanitised(outcome), cfg.maxSize);
      reaction := Respond(key.id, Handler(outcome), bytes);
      Log(key.conn, Answer(key.id, Handler(outcome), Some(e)), ReachesPeer(reaction, connected));
    }

    /** The connection callback of the server, for a connection that went down. */
    method OnConnectionDown(c: Conn)
      requires Valid()
      modifies this, registry
      ensures Valid() && View() == ServerDownStep(old(View()), c)
      ensures View().active == map k | k in old(View()).active && k.conn != c :: old(View()).active[k]
    {
      ghost var srv := View();
      DroppedIsCleared(srv, registry.active, c);
      ClearRegistry(c);
      closed := closed + {c};
      fates := srv.fates + map e | e in Cleared(srv, c) :: ClearedByClose;
    }

    method ClearRegistry(c: Conn)
      requires registry.Valid()
      modifies registry
      ensures registry.Valid() && registry.issued == old(registry.issued)
      ensures Plain(registry.active) == R.ClearIn(old(Plain(registry.active)), c)
      ensures registry.canceled <= old(registry.canceled) + registry.issued
      ensures Serials(registry.canceled) == old(Serials(registry.canceled)) + old(Dropped(registry.active, c))
    {
      PlainDown(registry.View(), registry.limits, c);
      assert R.Flags(registry.active, c) <= registry.issued by {
        ActiveIssued();
      }
      registry.ClearConnection(c);
    }

    lemma ActiveIssued()
      requires registry.Valid()
      ensures forall k | k in registry.active :: registry.active[k] in registry.issued
    {
      forall k | k in registry.active
        ensures registry.active[k] in registry.issued
      {
        assert R.Live(registry.View(), k, registry.active[k]);
      }
    }
  }
}
