/** The active-request registry of src/RpcServer.cc: a nested map connection -> id -> token,
    refined to a flat map of (connection, id) pairs, with its two capacity limits. */
module CancellationRegistry {
  import RpcMessage
  import opened Options
  import opened Sets

  type Conn = nat
  type Id = RpcMessage.u64
  datatype Key = Key(conn: Conn, id: Id)

  datatype RegisterStatus = Registered | DuplicateRequestId | GlobalLimitReached | ConnectionLimitReached

  /** Both limits are unset or positive (`setMaxActiveRequests*` assert it). */
  datatype Limits = Limits(total: Option<nat>, perConn: Option<nat>) {
    predicate Valid() {
      (total.Some? ==> total.value > 0) && (perConn.Some? ==> perConn.value > 0)
    }
  }

  // -------------------------------------------------------- the flat registry

  function On(keys: set<Key>, c: Conn): set<Key> {
    set k | k in keys && k.conn == c
  }

  function StatusOf(keys: set<Key>, limits: Limits, k: Key): RegisterStatus {
    if k in keys then DuplicateRequestId
    else if limits.total.Some? && |keys| >= limits.total.value then GlobalLimitReached
    else if limits.perConn.Some? && |On(keys, k.conn)| >= limits.perConn.value then ConnectionLimitReached
    else Registered
  }

  function RemoveFrom<T>(m: map<Key, T>, k: Key): map<Key, T> {
    m - {k}
  }

  function ClearIn<T>(m: map<Key, T>, c: Conn): map<Key, T> {
    map k | k in m && k.conn != c :: m[k]
  }

  ghost predicate WithinLimits(keys: set<Key>, limits: Limits) {
    && (limits.total.Some? ==> |keys| <= limits.total.value)
    && (limits.perConn.Some? ==> forall c :: |On(keys, c)| <= limits.perConn.value)
  }

  /** Removing keys keeps both limits. */
  lemma LimitsKeptBySubset(keys: set<Key>, fewer: set<Key>, limits: Limits)
    requires WithinLimits(keys, limits) && fewer <= keys
    ensures WithinLimits(fewer, limits)
  {
    SubsetSize(fewer, keys);
    forall c
      ensures |On(fewer, c)| <= |On(keys, c)|
    {
      SubsetSize(On(fewer, c), On(keys, c));
    }
  }

  /** A registration that passes the checks keeps both limits;
      the unchecked first request of a connection needs limit > 0. */
  lemma LimitsKeptByRegister(keys: set<Key>, limits: Limits, k: Key)
    requires limits.Valid() && WithinLimits(keys, limits) && StatusOf(keys, limits, k) == Registered
    ensures WithinLimits(keys + {k}, limits)
  {
    forall c
      ensures |On(keys + {k}, c)| <= |On(keys, c)| + (if c == k.conn then 1 else 0)
    {
      if c == k.conn {
        assert On(keys + {k}, c) == On(keys, c) + {k};
      } else {
        assert On(keys + {k}, c) == On(keys, c);
      }
    }
  }

  lemma ClearCount<T>(m: map<Key, T>, c: Conn)
    ensures |m| == |ClearIn(m, c)| + |On(m.Keys, c)|
  {
    assert m.Keys == ClearIn(m, c).Keys + On(m.Keys, c);
  }

  // ------------------------------------------------ the nested map refines it

  /** The nested map holds exactly the pairs of the flat one, and no inner map is empty. */
  ghost predicate Refines<T>(nested: map<Conn, map<Id, T>>, flat: map<Key, T>) {
    && (forall c, i :: Agree(nested, flat, c, i))
    && (forall c :: NoEmptyInner(nested, c))
  }

  ghost predicate Agree<T>(nested: map<Conn, map<Id, T>>, flat: map<Key, T>, c: Conn, i: Id) {
    if c in nested && i in nested[c] then Key(c, i) in flat && flat[Key(c, i)] == nested[c][i]
    else Key(c, i) !in flat
  }

  ghost predicate NoEmptyInner<T>(nested: map<Conn, map<Id, T>>, c: Conn) {
    c in nested ==> nested[c] != map[]
  }

  function EraseInner<T>(nested: map<Conn, map<Id, T>>, c: Conn, i: Id): map<Conn, map<Id, T>>
    requires c in nested && i in nested[c]
  {
    var inner := nested[c] - {i};
    if |inner| == 0 then nested - {c} else nested[c := inner]
  }

  lemma EraseInnerRefines<T>(nested: map<Conn, map<Id, T>>, flat: map<Key, T>, c: Conn, i: Id)
    requires Refines(nested, flat) && c in nested && i in nested[c]
    ensures Refines(EraseInner(nested, c, i), RemoveFrom(flat, Key(c, i)))
  {
    var inner := nested[c] - {i};
    assert |inner| == 0 ==> inner == map[];
    var nested', flat' := EraseInner(nested, c, i), RemoveFrom(flat, Key(c, i));
    forall d, j
      ensures Agree(nested', flat', d, j)
    {
      assert Agree(nested, flat, d, j);
      assert d == c && j != i && j in nested[c] ==> j in inner;
    }
    forall d
      ensures NoEmptyInner(nested', d)
    {
      assert NoEmptyInner(nested, d);
    }
  }

  ghost function Pairs(c: Conn, ids: set<Id>): set<Key> {
    set i | i in ids :: Key(c, i)
  }

  lemma {:induction false} PairsSize(c: Conn, ids: set<Id>)
    ensures |Pairs(c, ids)| == |ids|
  {
    if ids != {} {
      var i :| i in ids;
      PairsSize(c, ids - {i});
      assert Pairs(c, ids) == Pairs(c, ids - {i}) + {Key(c, i)};
    }
  }

  /** An inner map counts the active requests of its connection. */
  lemma InnerSize<T>(nested: map<Conn, map<Id, T>>, flat: map<Key, T>, c: Conn)
    requires Refines(nested, flat)
    ensures |On(flat.Keys, c)| == if c in nested then |nested[c]| else 0
  {
    forall i
      ensures Key(c, i) in flat <==> c in nested && i in nested[c]
    {
      assert Agree(nested, flat, c, i);
    }
    var ids := if c in nested then nested[c].Keys else {};
    PairsSize(c, ids);
    assert On(flat.Keys, c) == Pairs(c, ids) by {
      forall k | k in On(flat.Keys, c)
        ensures k in Pairs(c, ids)
      {
        assert k == Key(c, k.id);
      }
    }
  }

  ghost function OnAny(keys: set<Key>, conns: set<Conn>): set<Key> {
    set k | k in keys && k.conn in conns
  }

  /** The summing loop of `registerToken` computes how many pairs are active. */
  method CountActive<T>(nested: map<Conn, map<Id, T>>, ghost flat: map<Key, T>) returns (active: nat)
    requires Refines(nested, flat)
    ensures active == |flat|
  {
    active := 0;
    var left := nested.Keys;
    ghost var keys := flat.Keys;
    forall k | k in keys
      ensures k.conn in left
    {
      assert Agree(nested, flat, k.conn, k.id) && k == Key(k.conn, k.id);
    }
    assert OnAny(keys, left) == keys;
    while left != {}
      invariant left <= nested.Keys
      invariant active + |OnAny(keys, left)| == |keys|
    {
      var c :| c in left;
      InnerSize(nested, flat, c);
      assert OnAny(keys, left) == OnAny(keys, left - {c}) + On(keys, c);
      active := active + |nested[c]|;
      left := left - {c};
    }
    assert OnAny(keys, {}) == {};
  }

  function Inserted<T>(nested: map<Conn, map<Id, T>>, c: Conn, i: Id, t: T): map<Conn, map<Id, T>> {
    var inner := if c in nested then nested[c] else map[];
    nested[c := inner[i := t]]
  }

  lemma InsertedRefines<T>(nested: map<Conn, map<Id, T>>, flat: map<Key, T>, c: Conn, i: Id, t: T)
    requires Refines(nested, flat)
    ensures Refines(Inserted(nested, c, i, t), flat[Key(c, i) := t])
  {
    var nested', flat' := Inserted(nested, c, i, t), flat[Key(c, i) := t];
    assert i in nested'[c];
    forall d, j
      ensures Agree(nested', flat', d, j)
    {
      assert Agree(nested, flat, d, j);
    }
    forall d
      ensures NoEmptyInner(nested', d)
    {
      assert NoEmptyInner(nested, d);
    }
  }

  // ------------------------------------------- the registry with its accounts

  /** A handle to the shared atomic flag behind an `RpcCancellationToken`. */
  datatype Token = Token(owner: Key, serial: nat)

  /** The nested map, the flat map it stands for, the flags, and how tokens came and went. */
  datatype Book = Book(
    nested: map<Conn, map<Id, Token>>,
    active: map<Key, Token>,
    canceled: set<Token>,     // the flags that hold `true`
    issued: set<Token>,       // every token ever registered
    registrations: nat, takes: nat, cancels: nat, clears: nat)

  datatype Op =
    | Register(conn: Conn, id: Id, token: Token)
    | Take(conn: Conn, id: Id)
    | Cancel(conn: Conn, id: Id)
    | Clear(conn: Conn)

  function Flags(active: map<Key, Token>, c: Conn): set<Token> {
    set k | k in active && k.conn == c :: active[k]
  }

  function Erased(b: Book, c: Conn, i: Id): Book
    requires c in b.nested && i in b.nested[c]
  {
    b.(nested := EraseInner(b.nested, c, i), active := RemoveFrom(b.active, Key(c, i)))
  }

  function Apply(b: Book, limits: Limits, op: Op): Book {
    match op
    case Register(c, i, token) =>
      if StatusOf(b.active.Keys, limits, Key(c, i)) != Registered then b
      else b.(nested := Inserted(b.nested, c, i, token), active := b.active[Key(c, i) := token],
              issued := b.issued + {token}, registrations := b.registrations + 1)
    case Take(c, i) =>
      if c !in b.nested || i !in b.nested[c] then b
      else Erased(b, c, i).(takes := b.takes + 1)
    case Cancel(c, i) =>
      if c !in b.nested || i !in b.nested[c] then b
      else Erased(b, c, i).(cancels := b.cancels + 1, canceled := b.canceled + {b.nested[c][i]})
    case Clear(c) =>
      if c !in b.nested then b
      else b.(nested := b.nested - {c}, active := ClearIn(b.active, c),
              canceled := b.canceled + Flags(b.active, c), clears := b.clears + |b.nested[c]|)
  }

  /** Active tokens belong to one pair each, are not cancelled,
      and with the removed ones account for every registration. */
  ghost predicate TokensOk(b: Book) {
    && (forall k | k in b.active :: Live(b, k, b.active[k]))
    && b.registrations == b.takes + b.cancels + b.clears + |b.active|
  }

  ghost predicate Live(b: Book, k: Key, token: Token) {
    token.owner == k && token in b.issued && token !in b.canceled
  }

  ghost predicate BookOk(b: Book, limits: Limits) {
    limits.Valid() && Refines(b.nested, b.active) && WithinLimits(b.active.Keys, limits) && TokensOk(b)
  }

  /** A token is freshly made when it is registered. */
  predicate Fresh(b: Book, op: Op) {
    op.Register? ==> op.token.owner == Key(op.conn, op.id) && op.token !in b.issued && op.token !in b.canceled
  }

  lemma RefinesStep(b: Book, limits: Limits, op: Op)
    requires Refines(b.nested, b.active)
    ensures Refines(Apply(b, limits, op).nested, Apply(b, limits, op).active)
  {
    match op
    case Register(c, i, token) => InsertedRefines(b.nested, b.active, c, i, token);
    case Take(c, i) =>
      if c in b.nested && i in b.nested[c] {
        EraseInnerRefines(b.nested, b.active, c, i);
      }
    case Cancel(c, i) =>
      if c in b.nested && i in b.nested[c] {
        EraseInnerRefines(b.nested, b.active, c, i);
      }
    case Clear(c) => ClearRefines(b.nested, b.active, c);
  }

  lemma ClearRefines<T>(nested: map<Conn, map<Id, T>>, flat: map<Key, T>, c: Conn)
    requires Refines(nested, flat)
    ensures Refines(nested - {c}, ClearIn(flat, c))
    ensures c !in nested ==> ClearIn(flat, c) == flat
  {
    forall d, i
      ensures Agree(nested - {c}, ClearIn(flat, c), d, i)
    {
      assert Agree(nested, flat, d, i);
    }
    forall d
      ensures NoEmptyInner(nested - {c}, d)
    {
      assert NoEmptyInner(nested, d);
    }
    forall k | k in flat && c !in nested
      ensures k.conn != c
    {
      assert Agree(nested, flat, k.conn, k.id) && k == Key(k.conn, k.id);
    }
  }

  lemma LimitsStep(b: Book, limits: Limits, op: Op)
    requires limits.Valid() && WithinLimits(b.active.Keys, limits)
    ensures WithinLimits(Apply(b, limits, op).active.Keys, limits)
  {
    var keys, keys' := b.active.Keys, Apply(b, limits, op).active.Keys;
    if op.Register? && keys' != keys {
      LimitsKeptByRegister(keys, limits, Key(op.conn, op.id));
      assert keys' == keys + {Key(op.conn, op.id)};
    } else {
      LimitsKeptBySubset(keys, keys', limits);
    }
  }

  lemma TokensAfterRegister(b: Book, limits: Limits, c: Conn, i: Id, token: Token)
    requires TokensOk(b) && Fresh(b, Register(c, i, token))
    ensures TokensOk(Apply(b, limits, Register(c, i, token)))
  {
    var b' := Apply(b, limits, Register(c, i, token));
    assert b' != b ==> b'.active.Keys == b.active.Keys + {Key(c, i)};
  }

  lemma TokensAfterRemoval(b: Book, limits: Limits, c: Conn, i: Id)
    requires Refines(b.nested, b.active) && TokensOk(b)
    ensures TokensOk(Apply(b, limits, Take(c, i)))
    ensures TokensOk(Apply(b, limits, Cancel(c, i)))
  {
    assert Agree(b.nested, b.active, c, i);
    if c in b.nested && i in b.nested[c] {
      var active' := RemoveFrom(b.active, Key(c, i));
      assert active'.Keys == b.active.Keys - {Key(c, i)};
      assert |active'| == |b.active| - 1;
    }
  }

  lemma TokensAfterClear(b: Book, limits: Limits, c: Conn)
    requires Refines(b.nested, b.active) && TokensOk(b)
    ensures TokensOk(Apply(b, limits, Clear(c)))
  {
    ClearCount(b.active, c);
    InnerSize(b.nested, b.active, c);
  }

  /** Every operation keeps the refinement, both limits and the accounts. */
  lemma BookStep(b: Book, limits: Limits, op: Op)
    requires BookOk(b, limits) && Fresh(b, op)
    ensures BookOk(Apply(b, limits, op), limits)
  {
    RefinesStep(b, limits, op);
    LimitsStep(b, limits, op);
    match op
    case Register(c, i, token) => TokensAfterRegister(b, limits, c, i, token);
    case Take(c, i) => TokensAfterRemoval(b, limits, c, i);
    case Cancel(c, i) => TokensAfterRemoval(b, limits, c, i);
    case Clear(c) => TokensAfterClear(b, limits, c);
  }

  // --------------------------------------------------------- every run of it

  function EmptyBook(): Book {
    Book(map[], map[], {}, {}, 0, 0, 0, 0)
  }

  /** The registry after the operations of all threads, in the order in which they got the mutex. */
  function After(limits: Limits, ops: seq<Op>): Book {
    if ops == [] then EmptyBook() else Apply(After(limits, ops[..|ops| - 1]), limits, ops[|ops| - 1])
  }

  predicate AllFresh(limits: Limits, ops: seq<Op>) {
    ops == [] || (AllFresh(limits, ops[..|ops| - 1]) && Fresh(After(limits, ops[..|ops| - 1]), ops[|ops| - 1]))
  }

  lemma EmptyBookOk(limits: Limits)
    requires limits.Valid()
    ensures BookOk(EmptyBook(), limits)
  {
    var b := EmptyBook();
    assert forall c :: On(b.active.Keys, c) == {};
    assert forall c, i :: Agree(b.nested, b.active, c, i);
    assert forall c :: NoEmptyInner(b.nested, c);
  }

  /** However the threads interleave, the nested map stays a flat set of pairs without empty inner maps, both limits
      hold, active tokens are uncancelled, and registrations = takes + cancels + clears + active. */
  lemma {:induction false} AlwaysOk(limits: Limits, ops: seq<Op>)
    requires limits.Valid() && AllFresh(limits, ops)
    ensures BookOk(After(limits, ops), limits)
  {
    if ops == [] {
      EmptyBookOk(limits);
    } else {
      AlwaysOk(limits, ops[..|ops| - 1]);
      BookStep(After(limits, ops[..|ops| - 1]), limits, ops[|ops| - 1]);
    }
  }

  /** However the threads interleave, a registration is refused for a limit only when that limit is reached exactly, and
      as a duplicate only when the pair is active: below its limits the registry takes every new pair. */
  lemma RefusedOnlyWhenFull(limits: Limits, ops: seq<Op>, k: Key)
    requires limits.Valid() && AllFresh(limits, ops)
    ensures var keys := After(limits, ops).active.Keys; var status := StatusOf(keys, limits, k);
            && (status == DuplicateRequestId <==> k in keys)
            && (status == GlobalLimitReached ==> limits.total.Some? && |keys| == limits.total.value)
            && (status == ConnectionLimitReached ==> limits.perConn.Some? && |On(keys, k.conn)| == limits.perConn.value)
            && (status == Registered <==>
                  && k !in keys && (limits.total.Some? ==> |keys| < limits.total.value)
                  && (limits.perConn.Some? ==> |On(keys, k.conn)| < limits.perConn.value))
  {
    AlwaysOk(limits, ops);
  }

  predicate Accepts(b: Book, limits: Limits, op: Op, k: Key) {
    op.Register? && Key(op.conn, op.id) == k && StatusOf(b.active.Keys, limits, k) == Registered
  }

  /** The token of the latest accepted registration of a pair. */
  function Latest(limits: Limits, ops: seq<Op>, k: Key): Option<Token> {
    if ops == [] then None
    else
      var front, op := ops[..|ops| - 1], ops[|ops| - 1];
      if Accepts(After(limits, front), limits, op, k) then Some(op.token) else Latest(limits, front, k)
  }

  lemma ApplyKeepsPair(b: Book, limits: Limits, op: Op, k: Key)
    ensures var b' := Apply(b, limits, op);
            if Accepts(b, limits, op, k) then k in b'.active && b'.active[k] == op.token
            else k in b'.active ==> k in b.active && b'.active[k] == b.active[k]
  {}

  /** `take` looks a token up by connection and id only:
      what it finds is the latest accepted registration of the pair. */
  lemma {:induction false} TakeFindsLatest(limits: Limits, ops: seq<Op>, k: Key)
    ensures k in After(limits, ops).active ==> Latest(limits, ops, k) == Some(After(limits, ops).active[k])
  {
    if ops != [] {
      var front := ops[..|ops| - 1];
      TakeFindsLatest(limits, front, k);
      ApplyKeepsPair(After(limits, front), limits, ops[|ops| - 1], k);
    }
  }

  /** So a late reply takes the token of another execution when its id was registered again in between. */
  lemma ReusedIdIsMixedUp(c: Conn, i: Id, first: Token, second: Token)
    requires first != second
    ensures var ops := [Register(c, i, first), Op.Cancel(c, i), Register(c, i, second)];
            var b := After(Limits(None, None), ops);
            Key(c, i) in b.active && b.active[Key(c, i)] == second && first in b.canceled
  {
    var limits := Limits(None, None);
    var ops1 := [Register(c, i, first)];
    var ops2 := [Register(c, i, first), Op.Cancel(c, i)];
    var ops3 := [Register(c, i, first), Op.Cancel(c, i), Register(c, i, second)];
    assert ops1[..0] == [] && ops2[..1] == ops1 && ops3[..2] == ops2;
    assert After(limits, ops1) == Apply(EmptyBook(), limits, ops1[0]);
    assert After(limits, ops2) == Apply(After(limits, ops1), limits, ops2[1]);
    assert After(limits, ops2).active == map[];
    assert After(limits, ops3) == Apply(After(limits, ops2), limits, ops3[2]);
  }

  // ------------------------------------- when a reply takes its own token

  /** A registration of the pair at position `j` is accepted. */
  predicate AcceptedAt(limits: Limits, ops: seq<Op>, k: Key, j: nat) {
    j < |ops| && Accepts(After(limits, ops[..j]), limits, ops[j], k)
  }

  /** After the first `n` operations, a lookup of the pair finds `token` or nothing. */
  predicate OwnOrNone(limits: Limits, ops: seq<Op>, k: Key, n: nat, token: Token) {
    n <= |ops| && (k in After(limits, ops[..n]).active ==> After(limits, ops[..n]).active[k] == token)
  }

  lemma AfterOneMore(limits: Limits, ops: seq<Op>, j: nat)
    requires j < |ops|
    ensures After(limits, ops[..j + 1]) == Apply(After(limits, ops[..j]), limits, ops[j])
    ensures AllFresh(limits, ops[..j + 1]) ==> AllFresh(limits, ops[..j]) && Fresh(After(limits, ops[..j]), ops[j])
  {
    assert ops[..j + 1][..j] == ops[..j];
  }

  lemma {:induction false} FreshPrefix(limits: Limits, ops: seq<Op>, j: nat)
    requires AllFresh(limits, ops) && j <= |ops|
    ensures AllFresh(limits, ops[..j])
    decreases |ops| - j
  {
    if j < |ops| {
      FreshPrefix(limits, ops, j + 1);
      AfterOneMore(limits, ops, j);
    } else {
      assert ops[..j] == ops;
    }
  }

  lemma StepIs(limits: Limits, ops: seq<Op>, j: nat)
    requires j < |ops|
    ensures After(limits, ops[..j + 1]) == Apply(After(limits, ops[..j]), limits, ops[j])
  {
    assert ops[..j + 1][..j] == ops[..j];
  }

  lemma FreshAt(limits: Limits, ops: seq<Op>, j: nat)
    requires AllFresh(limits, ops) && j < |ops|
    ensures Fresh(After(limits, ops[..j]), ops[j])
  {
    FreshPrefix(limits, ops, j + 1);
    AfterOneMore(limits, ops, j);
  }

  lemma IssuedGrows(b: Book, limits: Limits, op: Op)
    ensures b.issued <= Apply(b, limits, op).issued
    ensures forall k | Accepts(b, limits, op, k) :: op.token in Apply(b, limits, op).issued
  {}

  predicate OnRecord(limits: Limits, ops: seq<Op>, j: nat, token: Token) {
    j <= |ops| && token in After(limits, ops[..j]).issued
  }

  lemma PutOnRecord(limits: Limits, ops: seq<Op>, k: Key, at: nat)
    requires AcceptedAt(limits, ops, k, at)
    ensures OnRecord(limits, ops, at + 1, ops[at].token)
  {
    StepIs(limits, ops, at);
    IssuedGrows(After(limits, ops[..at]), limits, ops[at]);
  }

  lemma KeptOnRecord(limits: Limits, ops: seq<Op>, j: nat, token: Token)
    requires j < |ops| && OnRecord(limits, ops, j, token)
    ensures OnRecord(limits, ops, j + 1, token)
  {
    StepIs(limits, ops, j);
    IssuedGrows(After(limits, ops[..j]), limits, ops[j]);
  }

  /** A token that was registered stays on record. */
  lemma {:induction false} IssuedStays(limits: Limits, ops: seq<Op>, at: nat, j: nat, token: Token)
    requires OnRecord(limits, ops, at, token) && at <= j <= |ops|
    ensures OnRecord(limits, ops, j, token)
    decreases j
  {
    if at < j {
      IssuedStays(limits, ops, at, j - 1, token);
      KeptOnRecord(limits, ops, j - 1, token);
    }
  }

  lemma BecomesOwn(limits: Limits, ops: seq<Op>, k: Key, at: nat)
    requires AcceptedAt(limits, ops, k, at)
    ensures OwnOrNone(limits, ops, k, at + 1, ops[at].token)
  {
    StepIs(limits, ops, at);
    ApplyKeepsPair(After(limits, ops[..at]), limits, ops[at], k);
  }

  lemma StaysOwn(limits: Limits, ops: seq<Op>, k: Key, n: nat, token: Token)
    requires n < |ops| && OwnOrNone(limits, ops, k, n, token) && !AcceptedAt(limits, ops, k, n)
    ensures OwnOrNone(limits, ops, k, n + 1, token)
  {
    StepIs(limits, ops, n);
    ApplyKeepsPair(After(limits, ops[..n]), limits, ops[n], k);
  }

  /** Without another accepted registration of the pair the lookup never finds a foreign token. */
  lemma {:induction false} OwnUntilNext(limits: Limits, ops: seq<Op>, k: Key, at: nat, n: nat)
    requires AcceptedAt(limits, ops, k, at) && at < n <= |ops|
    requires forall j: nat | at < j < n :: !AcceptedAt(limits, ops, k, j)
    ensures OwnOrNone(limits, ops, k, n, ops[at].token)
    decreases n
  {
    if at < n - 1 {
      OwnUntilNext(limits, ops, k, at, n - 1);
      assert !AcceptedAt(limits, ops, k, n - 1);
      StaysOwn(limits, ops, k, n - 1, ops[at].token);
    } else {
      BecomesOwn(limits, ops, k, at);
    }
  }

  lemma AcceptedIsForeign(b: Book, limits: Limits, op: Op, k: Key, own: Token)
    requires Accepts(b, limits, op, k) && Fresh(b, op) && own in b.issued
    ensures k in Apply(b, limits, op).active && Apply(b, limits, op).active[k] != own
  {}

  /** Right after another accepted registration the lookup finds a foreign token. */
  lemma ForeignAfterNext(limits: Limits, ops: seq<Op>, k: Key, at: nat, j: nat)
    requires AllFresh(limits, ops) && AcceptedAt(limits, ops, k, at) && at < j && AcceptedAt(limits, ops, k, j)
    ensures !OwnOrNone(limits, ops, k, j + 1, ops[at].token)
  {
    FreshAt(limits, ops, j);
    PutOnRecord(limits, ops, k, at);
    IssuedStays(limits, ops, at + 1, j, ops[at].token);
    AcceptedIsForeign(After(limits, ops[..j]), limits, ops[j], k, ops[at].token);
    StepIs(limits, ops, j);
  }

  /** For every order of operations and every accepted registration: a reply of that execution, whenever it comes,
      takes its own token or none, if and only if no later registration of the same pair is accepted. */
  lemma TakesOwnIff(limits: Limits, ops: seq<Op>, k: Key, at: nat)
    requires AllFresh(limits, ops) && AcceptedAt(limits, ops, k, at)
    ensures (forall n: nat | at < n <= |ops| :: OwnOrNone(limits, ops, k, n, ops[at].token))
            <==> (forall j: nat | at < j < |ops| :: !AcceptedAt(limits, ops, k, j))
  {
    if j: nat :| at < j < |ops| && AcceptedAt(limits, ops, k, j) {
      ForeignAfterNext(limits, ops, k, at, j);
    } else {
      forall n: nat | at < n <= |ops|
        ensures OwnOrNone(limits, ops, k, n, ops[at].token)
      {
        OwnUntilNext(limits, ops, k, at, n);
      }
    }
  }

  predicate Registers(op: Op, k: Key) {
    op.Register? && Key(op.conn, op.id) == k
  }

  /** So it is enough that ids are used once per connection, as the client does. */
  lemma UniqueIdTakesOwn(limits: Limits, ops: seq<Op>, k: Key, at: nat, n: nat)
    requires AcceptedAt(limits, ops, k, at) && at < n <= |ops|
    requires forall j: nat | at < j < |ops| :: !Registers(ops[j], k)
    ensures OwnOrNone(limits, ops, k, n, ops[at].token)
  {
    forall j: nat | at < j < n
      ensures !AcceptedAt(limits, ops, k, j)
    {
      assert !Registers(ops[j], k);
    }
    OwnUntilNext(limits, ops, k, at, n);
  }

  // ------------------------------------------------------------------ object

  class Registry {
    var cancellations: map<Conn, map<Id, Token>>
    const limits: Limits
    var canceled: set<Token>
    ghost var active: map<Key, Token>
    ghost var issued: set<Token>
    ghost var registrations: nat
    ghost var takes: nat
    ghost var cancels: nat
    ghost var clears: nat

    ghost function View(): Book
      reads this
    {
      Book(cancellations, active, canceled, issued, registrations, takes, cancels, clears)
    }

    ghost predicate Valid()
      reads this
    {
      BookOk(View(), limits)
    }

    /** The map is well formed and within its limits, whatever tokens it holds. */
    ghost predicate Sound()
      reads this
    {
      limits.Valid() && Refines(cancellations, active) && WithinLimits(active.Keys, limits)
    }

    constructor (limits: Limits)
      requires limits.Valid()
      ensures View() == EmptyBook() && this.limits == limits && Valid()
    {
      cancellations, this.limits, canceled, active, issued := map[], limits, {}, map[], {};
      registrations, takes, cancels, clears := 0, 0, 0, 0;
      new;
      EmptyBookOk(limits);
    }

    /** The checks of `registerToken`, in its order: duplicate, global limit, then the limit of a known connection. */
    method Admit(c: Conn, i: Id) returns (status: RegisterStatus)
      requires limits.Valid() && Refines(cancellations, active)
      ensures status == StatusOf(active.Keys, limits, Key(c, i))
    {
      InnerSize(cancellations, active, c);
      assert Agree(cancellations, active, c, i);
      if c in cancellations && i in cancellations[c] {
        return DuplicateRequestId;
      }
      if limits.total.Some? {
        var activeRequests := CountActive(cancellations, active);
        if activeRequests >= limits.total.value {
          return GlobalLimitReached;
        }
      }
      if c in cancellations && limits.perConn.Some? && |cancellations[c]| >= limits.perConn.value {
        return ConnectionLimitReached;
      }
      return Registered;
    }

    /** `registerToken`: a rejected registration changes nothing. The map stays sound for every token, and the token
        accounts stay right when the token is new. */
    method RegisterToken(c: Conn, i: Id, token: Token) returns (status: RegisterStatus)
      requires Sound()
      modifies this
      ensures Sound() && (old(Valid() && Fresh(View(), Register(c, i, token))) ==> Valid())
      ensures View() == Apply(old(View()), limits, Register(c, i, token))
      ensures status == StatusOf(old(active.Keys), limits, Key(c, i))
      ensures status != Registered ==> View() == old(View())
      ensures status == DuplicateRequestId <==> Key(c, i) in old(active)
      ensures status == GlobalLimitReached <==>
                Key(c, i) !in old(active) && limits.total.Some? && |old(active)| == limits.total.value
      ensures status == ConnectionLimitReached <==>
                && Key(c, i) !in old(active) && (limits.total.Some? ==> |old(active)| < limits.total.value)
                && limits.perConn.Some? && |On(old(active).Keys, c)| == limits.perConn.value
      ensures status == Registered ==> active == old(active)[Key(c, i) := token]
    {
      status := Admit(c, i);
      RefinesStep(View(), limits, Register(c, i, token));
      LimitsStep(View(), limits, Register(c, i, token));
      if Valid() && Fresh(View(), Register(c, i, token)) {
        BookStep(View(), limits, Register(c, i, token));
      }
      if status == Registered {
        Record(Inserted(cancellations, c, i, token), active[Key(c, i) := token], canceled);
        issued, registrations := issued + {token}, registrations + 1;
      }
    }

    method Record(nested: map<Conn, map<Id, Token>>, ghost flat: map<Key, Token>, flags: set<Token>)
      modifies `cancellations, `active, `canceled
      ensures cancellations == nested && active == flat && canceled == flags
    {
      cancellations, active, canceled := nested, flat, flags;
    }

    /** `take`: hands out the token of the pair and forgets it; the token was never cancelled. */
    method Take(c: Conn, i: Id) returns (token: Option<Token>)
      requires Valid()
      modifies this
      ensures Valid() && View() == Apply(old(View()), limits, Op.Take(c, i))
      ensures token == if Key(c, i) in old(active) then Some(old(active)[Key(c, i)]) else None
      ensures token.Some? ==> token.value !in canceled
      ensures active == old(active) - {Key(c, i)} && canceled == old(canceled)
    {
      BookStep(View(), limits, Op.Take(c, i));
      assert Agree(cancellations, active, c, i);
      if c !in cancellations || i !in cancellations[c] {
        return None;
      }
      token := Some(cancellations[c][i]);
      Record(EraseInner(cancellations, c, i), RemoveFrom(active, Key(c, i)), canceled);
      takes := takes + 1;
    }

    /** `cancel`: sets the flag and forgets the token. */
    method Cancel(c: Conn, i: Id)
      requires Valid()
      modifies this
      ensures Valid() && View() == Apply(old(View()), limits, Op.Cancel(c, i))
      ensures active == old(active) - {Key(c, i)}
      ensures canceled == old(canceled) + if Key(c, i) in old(active) then {old(active)[Key(c, i)]} else {}
    {
      CancelForgets(View(), limits, c, i);
      BookStep(View(), limits, Op.Cancel(c, i));
      if c !in cancellations || i !in cancellations[c] {
        return;
      }
      Record(EraseInner(cancellations, c, i), RemoveFrom(active, Key(c, i)), canceled + {cancellations[c][i]});
      cancels := cancels + 1;
    }

    /** `clearConnectionCancellations`: cancels and forgets every token of a closed connection, and no other. */
    method ClearConnection(c: Conn)
      requires Valid()
      modifies this
      ensures Valid() && View() == Apply(old(View()), limits, Clear(c))
      ensures active == map k | k in old(active) && k.conn != c :: old(active)[k]
      ensures canceled == old(canceled) + set k | k in old(active) && k.conn == c :: old(active)[k]
    {
      BookStep(View(), limits, Clear(c));
      ClearForgets(View(), limits, c);
      if c !in cancellations {
        return;
      }
      var flags := StoreAll(cancellations[c], canceled);
      ClearFlags(cancellations, active, c);
      clears := clears + |cancellations[c]|;
      Record(cancellations - {c}, ClearIn(active, c), flags);
    }

    /** The loop that stores `true` into every flag of one connection. */
    static method StoreAll(inner: map<Id, Token>, canceled: set<Token>) returns (flags: set<Token>)
      ensures flags == canceled + set i | i in inner :: inner[i]
    {
      flags := canceled;
      var left := inner.Keys;
      while left != {}
        invariant left <= inner.Keys
        invariant flags == canceled + set i | i in inner && i !in left :: inner[i]
      {
        var i :| i in left;
        flags := flags + {inner[i]};
        left := left - {i};
      }
    }
  }

  /** `cancel` in terms of the flat registry: the token of the pair is cancelled and forgotten, and no other. */
  lemma CancelForgets(b: Book, limits: Limits, c: Conn, i: Id)
    requires Refines(b.nested, b.active)
    ensures var b' := Apply(b, limits, Op.Cancel(c, i));
            && b'.active == b.active - {Key(c, i)}
            && b'.canceled == b.canceled + if Key(c, i) in b.active then {b.active[Key(c, i)]} else {}
  {
    assert Agree(b.nested, b.active, c, i);
  }

  /** Closing a connection cancels and forgets exactly its own tokens. */
  lemma ClearForgets(b: Book, limits: Limits, c: Conn)
    requires Refines(b.nested, b.active)
    ensures var b' := Apply(b, limits, Clear(c));
            && b'.active == (map k | k in b.active && k.conn != c :: b.active[k])
            && b'.canceled == b.canceled + set k | k in b.active && k.conn == c :: b.active[k]
  {
    ClearRefines(b.nested, b.active, c);
    if c !in b.nested {
      forall k | k in b.active
        ensures k.conn != c
      {
        assert k in ClearIn(b.active, c);
      }
    }
  }

  lemma ClearFlags(nested: map<Conn, map<Id, Token>>, flat: map<Key, Token>, c: Conn)
    requires Refines(nested, flat) && c in nested
    ensures (set i | i in nested[c] :: nested[c][i]) == Flags(flat, c)
  {
    forall i | i in nested[c]
      ensures nested[c][i] in Flags(flat, c)
    {
      assert Agree(nested, flat, c, i);
    }
    forall k | k in flat && k.conn == c
      ensures k.id in nested[c] && nested[c][k.id] == flat[k]
    {
      assert Agree(nested, flat, k.conn, k.id) && k == Key(k.conn, k.id);
    }
  }
}
