/**
  The SQLite connection pool and the provider on top of it: connections reused by mode, at
  most `max` of them, every provider operation giving its connection back, and a counter of
  transactions in flight that decides between BEGIN and SAVEPOINT.
 */
module ConnectionPool {
  import opened Wrappers

  type Conn = nat
  datatype Mode = Read | Write
  datatype Entry = Entry(conn: Conn, inUse: bool, mode: Mode)

  // `made` is the number of connections opened so far; each gets the next number.
  datatype Pool = Pool(entries: seq<Entry>, closed: bool, made: nat)

  predicate Free(e: Entry, mode: Mode) {
    !e.inUse && e.mode == mode
  }

  /** Array.prototype.find: the first index that fits. */
  function FirstFree(entries: seq<Entry>, mode: Mode): (i: nat)
    ensures i <= |entries| && (forall j | 0 <= j < i :: !Free(entries[j], mode))
    ensures i < |entries| ==> Free(entries[i], mode)
  {
    if entries == [] || Free(entries[0], mode) then 0 else FirstFree(entries[1..], mode) + 1
  }

  function FirstOf(entries: seq<Entry>, conn: Conn): (i: nat)
    ensures i <= |entries| && (forall j | 0 <= j < i :: entries[j].conn != conn)
    ensures i < |entries| ==> entries[i].conn == conn
  {
    if entries == [] || entries[0].conn == conn then 0 else FirstOf(entries[1..], conn) + 1
  }

  function Acquire(p: Pool, max: nat, mode: Mode): (Pool, Option<Conn>) {
    if p.closed then (p, None)
    else
      var i := FirstFree(p.entries, mode);
      if i < |p.entries| then
        (p.(entries := p.entries[i := p.entries[i].(inUse := true)]), Some(p.entries[i].conn))
      else if |p.entries| >= max then (p, None)
      else (p.(entries := p.entries + [Entry(p.made, true, mode)], made := p.made + 1), Some(p.made))
  }

  function Release(p: Pool, conn: Conn): Pool {
    var i := FirstOf(p.entries, conn);
    if i < |p.entries| then p.(entries := p.entries[i := p.entries[i].(inUse := false)]) else p
  }

  function Close(p: Pool): Pool {
    p.(closed := true, entries := [])
  }

  class DatabasePool {
    var entries: seq<Entry>
    var closed: bool
    var made: nat
    const maxConnections: nat

    constructor (maxConnections: nat)
      ensures this.maxConnections == maxConnections && View() == Pool([], false, 0)
    {
      this.maxConnections := maxConnections;
      entries, closed, made := [], false, 0;
    }

    ghost function View(): Pool
      reads this
    {
      Pool(entries, closed, made)
    }

    method AcquireConn(mode: Mode) returns (conn: Option<Conn>)
      modifies this
      ensures (View(), conn) == Acquire(old(View()), maxConnections, mode)
    {
      if closed {
        return None;
      }
      var i := FirstFree(entries, mode);
      if i < |entries| {
        entries := entries[i := entries[i].(inUse := true)];
        return Some(entries[i].conn);
      }
      if |entries| >= maxConnections {
        return None;
      }
      entries := entries + [Entry(made, true, mode)];
      made := made + 1;
      return Some(made - 1);
    }

    method ReleaseConn(conn: Conn)
      modifies this
      ensures View() == Release(old(View()), conn)
    {
      var i := FirstOf(entries, conn);
      if i < |entries| {
        entries := entries[i := entries[i].(inUse := false)];
      }
    }

    method CloseAll()
      modifies this
      ensures View() == Close(old(View()))
    {
      closed := true;
      entries := [];
    }
  }

  // ---- Exclusivity and capacity over all runs ------------------------------------------------

  // Callers: who acquires, releases what it holds, or closes the pool.
  datatype Op = Take(mode: Mode) | Give(conn: Conn) | Shut

  /** The pool with what its callers hold, each connection with the mode it was asked for. */
  datatype World = World(pool: Pool, held: map<Conn, Mode>)

  // A holder releases once, what it holds.
  predicate Enabled(w: World, op: Op) {
    op.Give? ==> op.conn in w.held
  }

  function Step(w: World, max: nat, op: Op): World
    requires Enabled(w, op)
  {
    match op
    case Take(mode) =>
      var (p, conn) := Acquire(w.pool, max, mode);
      World(p, if conn.Some? then w.held[conn.value := mode] else w.held)
    case Give(conn) => World(Release(w.pool, conn), w.held - {conn})
    case Shut => w.(pool := Close(w.pool))
  }

  predicate Legal(w: World, max: nat, ops: seq<Op>)
    decreases |ops|
  {
    ops != [] ==> Enabled(w, ops[0]) && Legal(Step(w, max, ops[0]), max, ops[1..])
  }

  function After(w: World, max: nat, ops: seq<Op>): World
    requires Legal(w, max, ops)
    decreases |ops|
  {
    if ops == [] then w else After(Step(w, max, ops[0]), max, ops[1..])
  }

  ghost predicate Inv(w: World, max: nat) {
    && |w.pool.entries| <= max
    && (forall i, j | 0 <= i < j < |w.pool.entries| :: w.pool.entries[i].conn != w.pool.entries[j].conn)
    && (forall i | 0 <= i < |w.pool.entries| :: EntryAgrees(w, w.pool.entries[i]))
    && (forall c | c in w.held :: c < w.pool.made)
  }

  // An entry is in use exactly when somebody holds its connection, asked for in its mode.
  ghost predicate EntryAgrees(w: World, e: Entry) {
    && e.conn < w.pool.made
    && (e.inUse <==> e.conn in w.held)
    && (e.inUse ==> w.held[e.conn] == e.mode)
  }

  lemma TakeKeepsInv(w: World, max: nat, mode: Mode)
    requires Inv(w, max)
    ensures Inv(Step(w, max, Take(mode)), max)
    ensures
      var (p, conn) := Acquire(w.pool, max, mode);
      conn.Some? ==> conn.value !in w.held && Entry(conn.value, true, mode) in p.entries
  {
    var w' := Step(w, max, Take(mode));
    var (p, conn) := Acquire(w.pool, max, mode);
    var i := FirstFree(w.pool.entries, mode);
    if conn.Some? {
      assert p.entries[i] == Entry(conn.value, true, mode);
      assert forall j | 0 <= j < |w.pool.entries| && j != i :: p.entries[j] == w.pool.entries[j];
    }
  }

  lemma GiveKeepsInv(w: World, max: nat, conn: Conn)
    requires Inv(w, max) && conn in w.held
    ensures Inv(Step(w, max, Give(conn)), max)
  {
    var w' := Step(w, max, Give(conn));
    var i := FirstOf(w.pool.entries, conn);
    assert forall j | 0 <= j < |w.pool.entries| && j != i ::
        w'.pool.entries[j] == w.pool.entries[j] && w.pool.entries[j].conn != conn;
  }

  lemma {:induction false} RunKeepsInv(w: World, max: nat, ops: seq<Op>)
    requires Inv(w, max) && Legal(w, max, ops)
    ensures Inv(After(w, max, ops), max)
    decreases |ops|
  {
    if ops != [] {
      match ops[0]
      case Take(mode) => TakeKeepsInv(w, max, mode); RunKeepsInv(Step(w, max, ops[0]), max, ops[1..]);
      case Give(conn) => GiveKeepsInv(w, max, conn); RunKeepsInv(Step(w, max, ops[0]), max, ops[1..]);
      case Shut => RunKeepsInv(Step(w, max, ops[0]), max, ops[1..]);
    }
  }

  /** The pool refuses exactly when it is closed, or full with no idle connection of that mode. */
  lemma RefusesOnlyWhenExhausted(p: Pool, max: nat, mode: Mode)
    ensures Acquire(p, max, mode).1.None?
            <==> p.closed || (|p.entries| >= max && forall e | e in p.entries :: !Free(e, mode))
  {
  }

  const NEW: World := World(Pool([], false, 0), map[])

  /**
    In every run no connection is handed to two holders, the pool never exceeds its maximum,
    and a connection handed out has the mode asked for; it refuses exactly when it is closed, or full
    with every connection of that mode held by somebody.
   */
  lemma PoolIsExclusive(max: nat, ops: seq<Op>, mode: Mode)
    requires Legal(NEW, max, ops)
    ensures
      var w := After(NEW, max, ops);
      var (p, conn) := Acquire(w.pool, max, mode);
      && |w.pool.entries| <= max && |p.entries| <= max
      && (conn.Some? ==> conn.value !in w.held && Entry(conn.value, true, mode) in p.entries)
      && (conn.None? <==>
            (w.pool.closed || (|w.pool.entries| == max
                               && forall e <- w.pool.entries :: e.mode == mode ==> e.conn in w.held)))
  {
    RunKeepsInv(NEW, max, ops);
    TakeKeepsInv(After(NEW, max, ops), max, mode);
    RefusesOnlyWhenExhausted(After(NEW, max, ops).pool, max, mode);
  }

  lemma {:induction false} ClosedIff(w: World, max: nat, ops: seq<Op>)
    requires Legal(w, max, ops) && (w.pool.closed ==> w.pool.entries == [])
    ensures After(w, max, ops).pool.closed <==> w.pool.closed || Shut in ops
    ensures After(w, max, ops).pool.closed ==> After(w, max, ops).pool.entries == []
    decreases |ops|
  {
    if ops != [] {
      ClosedIff(Step(w, max, ops[0]), max, ops[1..]);
      assert ops == [ops[0]] + ops[1..];
    }
  }

  /** Once it was closed, and only then, a pool has no connections and hands none out, whatever its maximum. */
  lemma ShutIsFinal(max: nat, ops: seq<Op>, mode: Mode, larger: nat)
    requires Legal(NEW, max, ops) && larger > |After(NEW, max, ops).pool.entries|
    ensures Acquire(After(NEW, max, ops).pool, larger, mode).1.None? <==> Shut in ops
    ensures Shut in ops ==> After(NEW, max, ops).pool.entries == []
  {
    ClosedIff(NEW, max, ops);
  }
}
