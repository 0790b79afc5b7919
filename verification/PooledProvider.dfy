/**
  Transactions of the pooled SQLite provider.  `transaction` is split at its await: the part
  before the callback opens a transaction, the part after it commits or rolls back, and any
  number of other calls may run in between.
 */
module PooledProvider {
  import opened Wrappers
  import opened ConnectionPool

  // Open BEGIN/SAVEPOINT levels of each connection; 0 means no transaction.
  datatype Provider = Provider(pool: Pool, txDepth: int, levels: map<Conn, nat>)

  function Level(p: Provider, conn: Conn): nat {
    if conn in p.levels then p.levels[conn] else 0
  }

  /** The callback's connection and the depth it was opened at, or None after a throw. */
  function Open(p: Provider, max: nat, fault: bool): (Provider, Option<(Conn, int)>) {
    var (pool, conn) := Acquire(p.pool, max, Write);
    if conn.None? then (p, None)
    // BEGIN is refused on a connection that already has a transaction.
    else if fault || (p.txDepth == 0 && Level(p, conn.value) > 0) then (p.(pool := Release(pool, conn.value)), None)
    else
      (Provider(pool, p.txDepth + 1, p.levels[conn.value := Level(p, conn.value) + 1]), Some((conn.value, p.txDepth)))
  }

  /** COMMIT and ROLLBACK end the transaction, RELEASE pops a savepoint, ROLLBACK TO leaves it in place. */
  function LevelAfter(level: nat, depth: int, committed: bool, rolledBack: bool): nat {
    if committed then (if depth == 0 || level == 0 then 0 else level - 1)
    else if rolledBack && depth == 0 then 0
    else level
  }

  function Finish(p: Provider, conn: Conn, depth: int, committed: bool, rolledBack: bool): Provider {
    Provider(Release(p.pool, conn), p.txDepth - 1,
             p.levels[conn := LevelAfter(Level(p, conn), depth, committed, rolledBack)])
  }

  // exec, query, queryOne, the lock calls: acquire, work, release, whether or not the work throws.
  function Single(p: Provider, max: nat, mode: Mode): Provider {
    var (pool, conn) := Acquire(p.pool, max, mode);
    if conn.None? then p else p.(pool := Release(pool, conn.value))
  }

  /** `backup` creates its target directory between acquiring and its try block; also the connection left behind. */
  function Backup(p: Provider, max: nat, dirFails: bool): (Provider, Option<Conn>) {
    if !dirFails then (Single(p, max, Write), None)
    else
      var (pool, conn) := Acquire(p.pool, max, Write);
      if conn.None? then (p, None) else (p.(pool := pool), conn)
  }

  class PooledSqliteProvider {
    const pool: DatabasePool
    var txDepth: int
    var levels: map<Conn, nat>

    constructor (pool: DatabasePool)
      ensures this.pool == pool && txDepth == 0 && levels == map[]
    {
      this.pool := pool;
      txDepth, levels := 0, map[];
    }

    ghost function View(): Provider
      reads this, pool
    {
      Provider(pool.View(), txDepth, levels)
    }

    method RunSingle(mode: Mode)
      modifies pool
      ensures View() == Single(old(View()), pool.maxConnections, mode)
    {
      var conn := pool.AcquireConn(mode);
      if conn.Some? {
        pool.ReleaseConn(conn.value);
      }
    }

    method RunBackup(dirFails: bool)
      modifies pool
      ensures View() == Backup(old(View()), pool.maxConnections, dirFails).0
    {
      var conn := pool.AcquireConn(Write);
      if conn.None? || dirFails {
        return;
      }
      pool.ReleaseConn(conn.value);
    }

    method OpenTransaction(fault: bool) returns (tx: Option<(Conn, int)>)
      modifies this, pool
      ensures (View(), tx) == Open(old(View()), pool.maxConnections, fault)
    {
      var conn := pool.AcquireConn(Write);
      if conn.None? {
        return None;
      }
      var depth := txDepth;
      var level := if conn.value in levels then levels[conn.value] else 0;
      if fault || (depth == 0 && level > 0) {
        pool.ReleaseConn(conn.value);
        return None;
      }
      levels := levels[conn.value := level + 1];
      txDepth := txDepth + 1;
      return Some((conn.value, depth));
    }

    method FinishTransaction(conn: Conn, depth: int, committed: bool, rolledBack: bool)
      modifies this, pool
      ensures View() == Finish(old(View()), conn, depth, committed, rolledBack)
    {
      var level := if conn in levels then levels[conn] else 0;
      if committed {
        level := if depth == 0 || level == 0 then 0 else level - 1;
      } else if rolledBack && depth == 0 {
        level := 0;
      }
      levels := levels[conn := level];
      txDepth := txDepth - 1;
      pool.ReleaseConn(conn);
    }
  }

  // ---- All interleavings ---------------------------------------------------------------------

  datatype Op =
    | OpenTx(fault: bool)
    | FinishTx(conn: Conn, committed: bool, rolledBack: bool)
    | One(mode: Mode)
    | BackUp(dirFails: bool)

  /** `flights`: the transactions whose callback is running, with their depth; `leaked`: what failed backups kept. */
  datatype State = State(provider: Provider, held: map<Conn, Mode>, flights: map<Conn, int>, leaked: set<Conn>)

  const START: State := State(Provider(Pool([], false, 0), 0, map[]), map[], map[], {})

  predicate Enabled(s: State, op: Op) {
    op.FinishTx? ==> op.conn in s.flights
  }

  function Step(s: State, max: nat, op: Op): State
    requires Enabled(s, op)
  {
    match op
    case OpenTx(fault) =>
      var (p, tx) := Open(s.provider, max, fault);
      if tx.None? then s.(provider := p)
      else s.(provider := p, held := s.held[tx.value.0 := Write], flights := s.flights[tx.value.0 := tx.value.1])
    case FinishTx(conn, committed, rolledBack) =>
      s.(provider := Finish(s.provider, conn, s.flights[conn], committed, rolledBack),
         held := s.held - {conn}, flights := s.flights - {conn})
    case One(mode) => s.(provider := Single(s.provider, max, mode))
    case BackUp(dirFails) =>
      var (p, left) := Backup(s.provider, max, dirFails);
      if left.None? then s.(provider := p)
      else s.(provider := p, held := s.held[left.value := Write], leaked := s.leaked + {left.value})
  }

  predicate Legal(s: State, max: nat, ops: seq<Op>)
    decreases |ops|
  {
    ops != [] ==> Enabled(s, ops[0]) && Legal(Step(s, max, ops[0]), max, ops[1..])
  }

  function After(s: State, max: nat, ops: seq<Op>): State
    requires Legal(s, max, ops)
    decreases |ops|
  {
    if ops == [] then s else After(Step(s, max, ops[0]), max, ops[1..])
  }

  ghost predicate Balanced(s: State, max: nat) {
    Inv(World(s.provider.pool, s.held), max) && Tallied(s.held, s.flights, s.leaked, s.provider.txDepth)
  }

  ghost predicate Tallied(held: map<Conn, Mode>, flights: map<Conn, int>, leaked: set<Conn>, depth: int) {
    held.Keys == flights.Keys + leaked && flights.Keys !! leaked && depth == |flights|
  }

  lemma OneMoreKey<V>(m: map<Conn, V>, c: Conn, v: V)
    requires c !in m
    ensures m[c := v].Keys == m.Keys + {c} && |m[c := v]| == |m| + 1
  {
    assert |m[c := v].Keys| == |m[c := v]| && |m.Keys| == |m|;
  }

  lemma TallyFlight(held: map<Conn, Mode>, flights: map<Conn, int>, leaked: set<Conn>, depth: int, c: Conn, d: int)
    requires Tallied(held, flights, leaked, depth) && c !in held
    ensures Tallied(held[c := Write], flights[c := d], leaked, depth + 1)
  {
    assert c !in flights.Keys && c !in leaked;
    OneMoreKey(held, c, Write);
    OneMoreKey(flights, c, d);
  }

  lemma TallyLeak(held: map<Conn, Mode>, flights: map<Conn, int>, leaked: set<Conn>, depth: int, c: Conn)
    requires Tallied(held, flights, leaked, depth) && c !in held
    ensures Tallied(held[c := Write], flights, leaked + {c}, depth)
  {
    assert held[c := Write].Keys == held.Keys + {c};
    assert c !in flights.Keys;
  }

  lemma TallyReturn(held: map<Conn, Mode>, flights: map<Conn, int>, leaked: set<Conn>, depth: int, c: Conn)
    requires Tallied(held, flights, leaked, depth) && c in flights
    ensures c in held && Tallied(held - {c}, flights - {c}, leaked, depth - 1)
  {
    assert c in flights.Keys && c in held.Keys;
    assert (held - {c}).Keys == held.Keys - {c} && (flights - {c}).Keys == flights.Keys - {c};
    assert |flights.Keys - {c}| == |flights.Keys| - 1;
    assert |(flights - {c}).Keys| == |flights - {c}| && |flights.Keys| == |flights|;
  }

  lemma OpenKeepsBalance(s: State, max: nat, fault: bool)
    requires Balanced(s, max)
    ensures Balanced(Step(s, max, OpenTx(fault)), max)
  {
    hide Acquire, Release, Inv, Tallied;
    var w := World(s.provider.pool, s.held);
    TakeFromPool(w, max, Write);
    GiveBack(w, max, Write);
    var conn := Acquire(s.provider.pool, max, Write).1;
    if conn.Some? {
      TallyFlight(s.held, s.flights, s.leaked, s.provider.txDepth, conn.value, s.provider.txDepth);
    }
  }

  // What `TakeKeepsInv` says of a connection that was handed out.
  lemma TakeFromPool(w: World, max: nat, mode: Mode)
    requires Inv(w, max)
    ensures var (pool, conn) := Acquire(w.pool, max, mode);
      && (conn.Some? ==> conn.value !in w.held && Inv(World(pool, w.held[conn.value := mode]), max))
      && (conn.None? ==> pool == w.pool)
  {
  }

  lemma FinishKeepsBalance(s: State, max: nat, conn: Conn, committed: bool, rolledBack: bool)
    requires Balanced(s, max) && conn in s.flights
    ensures Balanced(Step(s, max, FinishTx(conn, committed, rolledBack)), max)
  {
    hide Release, Inv, LevelAfter, Tallied;
    TallyReturn(s.held, s.flights, s.leaked, s.provider.txDepth, conn);
    GiveKeepsInv(World(s.provider.pool, s.held), max, conn);
  }

  lemma BackupKeepsBalance(s: State, max: nat, dirFails: bool)
    requires Balanced(s, max)
    ensures Balanced(Step(s, max, BackUp(dirFails)), max)
  {
    hide Acquire, Release, Inv, Tallied;
    TakeFromPool(World(s.provider.pool, s.held), max, Write);
    GiveBack(World(s.provider.pool, s.held), max, Write);
    var conn := Acquire(s.provider.pool, max, Write).1;
    if conn.Some? {
      TallyLeak(s.held, s.flights, s.leaked, s.provider.txDepth, conn.value);
    }
  }

  lemma StepKeepsBalance(s: State, max: nat, op: Op)
    requires Balanced(s, max) && Enabled(s, op)
    ensures Balanced(Step(s, max, op), max)
  {
    match op
    case OpenTx(fault) => OpenKeepsBalance(s, max, fault);
    case FinishTx(conn, committed, rolledBack) => FinishKeepsBalance(s, max, conn, committed, rolledBack);
    case BackUp(dirFails) => BackupKeepsBalance(s, max, dirFails);
    case One(mode) =>
      hide Acquire, Release, Inv;
      TakeFromPool(World(s.provider.pool, s.held), max, mode);
      GiveBack(World(s.provider.pool, s.held), max, mode);
  }

  // Acquiring and releasing at once leaves the holders as they were.
  lemma GiveBack(w: World, max: nat, mode: Mode)
    requires Inv(w, max)
    ensures
      var (pool, conn) := Acquire(w.pool, max, mode);
      Inv(World(if conn.Some? then Release(pool, conn.value) else pool, w.held), max)
  {
    TakeKeepsInv(w, max, mode);
    var (pool, conn) := Acquire(w.pool, max, mode);
    var w' := ConnectionPool.Step(w, max, Take(mode));
    if conn.Some? {
      GiveKeepsInv(w', max, conn.value);
      assert w'.held - {conn.value} == w.held;
    }
  }

  /**
    In every interleaving of transactions, failing or not, single calls and backups, the
    connections held are those of the transactions in flight and those failed backups kept, and
    the depth counter is the number of the former.
   */
  lemma {:induction false} DepthCountsFlights(s: State, max: nat, ops: seq<Op>)
    requires Balanced(s, max) && Legal(s, max, ops)
    ensures Balanced(After(s, max, ops), max) && s.leaked <= After(s, max, ops).leaked
    decreases |ops|
  {
    hide Step, Balanced;
    if ops != [] {
      StepKeepsBalance(s, max, ops[0]);
      LeaksGrow(s, max, ops[0]);
      DepthCountsFlights(Step(s, max, ops[0]), max, ops[1..]);
    }
  }

  /** A backup that has its connection and cannot create its directory keeps it, and nothing else keeps one. */
  lemma LeaksGrow(s: State, max: nat, op: Op)
    requires Enabled(s, op)
    ensures forall c :: c in Step(s, max, op).leaked <==> c in s.leaked || Keeps(s, max, op, c)
  {
    hide Acquire, Release;
  }

  predicate Keeps(s: State, max: nat, op: Op, c: Conn) {
    op == BackUp(true) && Acquire(s.provider.pool, max, Write).1 == Some(c)
  }

  predicate KeptBy(s: State, max: nat, ops: seq<Op>, c: Conn)
    requires Legal(s, max, ops)
    decreases |ops|
  {
    ops != [] && (Keeps(s, max, ops[0], c) || KeptBy(Step(s, max, ops[0]), max, ops[1..], c))
  }

  lemma {:induction false} LeakedIff(s: State, max: nat, ops: seq<Op>, c: Conn)
    requires Legal(s, max, ops)
    ensures c in After(s, max, ops).leaked <==> c in s.leaked || KeptBy(s, max, ops, c)
    decreases |ops|
  {
    hide Step, Keeps;
    if ops != [] {
      LeaksGrow(s, max, ops[0]);
      LeakedIff(Step(s, max, ops[0]), max, ops[1..], c);
    }
  }

  /**
    After any run that has no transaction in flight, the connections still in use are exactly those that
    a backup kept which could not create its directory: for good.
   */
  lemma EverythingElseIsReturned(max: nat, ops: seq<Op>, entry: Entry)
    requires Legal(START, max, ops) && After(START, max, ops).flights == map[]
    requires entry in After(START, max, ops).provider.pool.entries
    ensures After(START, max, ops).provider.txDepth == 0
    ensures entry.inUse <==> entry.conn in After(START, max, ops).leaked
    ensures entry.inUse <==> KeptBy(START, max, ops, entry.conn)
  {
    hide Legal, After, Step, KeptBy;
    assert Balanced(START, max);
    DepthCountsFlights(START, max, ops);
    LeakedIff(START, max, ops, entry.conn);
    var s := After(START, max, ops);
    var i :| 0 <= i < |s.provider.pool.entries| && s.provider.pool.entries[i] == entry;
    assert EntryAgrees(World(s.provider.pool, s.held), entry);
  }

  // ---- A connection given back is used again -------------------------------------------------

  /** An idle connection of that mode. */
  predicate HasIdle(p: Pool, mode: Mode) {
    exists e <- p.entries :: Free(e, mode)
  }

  lemma TakenAndReturned(w: World, max: nat, mode: Mode)
    requires Inv(w, max) && Acquire(w.pool, max, mode).1.Some?
    ensures var (pool, conn) := Acquire(w.pool, max, mode); var v := Release(pool, conn.value);
      && HasIdle(v, mode) && v.made == w.pool.made + (if HasIdle(w.pool, mode) then 0 else 1)
      && v.entries == w.pool.entries + if HasIdle(w.pool, mode) then [] else [Entry(w.pool.made, false, mode)]
  {
    var (pool, conn) := Acquire(w.pool, max, mode);
    var i := FirstFree(w.pool.entries, mode);
    var v := Release(pool, conn.value);
    assert pool.entries[i].conn == conn.value;
    var j := FirstOf(pool.entries, conn.value);
    assert j == i;
    assert v.entries[i] == Entry(conn.value, false, mode) && v.entries[i] in v.entries;
    if i < |w.pool.entries| {
      assert w.pool.entries[i] in w.pool.entries;
      assert v.entries == w.pool.entries;
    } else {
      assert forall e <- w.pool.entries :: !Free(e, mode);
    }
  }

  /**
    A single call, or a transaction refused at BEGIN, takes an idle connection and leaves the pool as it
    was, or opens one and leaves it idle for the next.
   */
  lemma CallsReuse(s: State, max: nat, mode: Mode, op: Op)
    requires Balanced(s, max) && Acquire(s.provider.pool, max, mode).1.Some?
    requires op == One(mode) || (op == OpenTx(true) && mode == Write) || (op == BackUp(false) && mode == Write)
    ensures var p, v := s.provider.pool, Step(s, max, op).provider.pool;
      && HasIdle(v, mode)
      && v.entries == p.entries + if HasIdle(p, mode) then [] else [Entry(p.made, false, mode)]
  {
    TakenAndReturned(World(s.provider.pool, s.held), max, mode);
    hide Acquire, Release, Balanced, HasIdle;
  }

  // ---- Connections left inside a transaction -------------------------------------------------

  /** One open level per transaction in flight, none anywhere else. */
  ghost predicate Tidy(s: State) {
    forall c: Conn :: Level(s.provider, c) == if c in s.flights then 1 else 0
  }

  /** A level more than its use accounts for. */
  predicate Poisoned(s: State, c: Conn) {
    if c in s.flights then s.flights[c] != 0 && Level(s.provider, c) >= 2 else Level(s.provider, c) >= 1
  }

  // The transaction's end committed, or it was opened at depth 0 and ROLLBACK worked.
  predicate Settles(s: State, op: Op)
    requires Enabled(s, op)
  {
    op.FinishTx? ==> op.committed || (s.flights[op.conn] == 0 && op.rolledBack)
  }

  predicate AllSettle(s: State, max: nat, ops: seq<Op>)
    requires Legal(s, max, ops)
    decreases |ops|
  {
    ops != [] ==> Settles(s, ops[0]) && AllSettle(Step(s, max, ops[0]), max, ops[1..])
  }

  // What a step does to levels and flights.
  lemma OpenShape(s: State, max: nat, fault: bool)
    requires Balanced(s, max)
    ensures var v := Step(s, max, OpenTx(fault)); var c := Acquire(s.provider.pool, max, Write).1;
      if c.None? || fault || (s.provider.txDepth == 0 && Level(s.provider, c.value) > 0) then
        v.provider.levels == s.provider.levels && v.flights == s.flights
      else
        && c.value !in s.flights && v.flights == s.flights[c.value := s.provider.txDepth]
        && v.provider.levels == s.provider.levels[c.value := Level(s.provider, c.value) + 1]
  {
    TakeFromPool(World(s.provider.pool, s.held), max, Write);
    hide Acquire, Release, Inv;
    var c := Acquire(s.provider.pool, max, Write).1;
    assert s.flights.Keys <= s.held.Keys;
  }

  lemma QuietShape(s: State, max: nat, op: Op)
    requires !op.OpenTx? && !op.FinishTx?
    ensures var v := Step(s, max, op); v.provider.levels == s.provider.levels && v.flights == s.flights
  {
    hide Acquire, Release;
  }

  lemma FinishShape(s: State, max: nat, op: Op)
    requires Enabled(s, op) && op.FinishTx?
    ensures var v := Step(s, max, op);
      && v.flights == s.flights - {op.conn}
      && v.provider.levels == s.provider.levels[op.conn :=
           LevelAfter(Level(s.provider, op.conn), s.flights[op.conn], op.committed, op.rolledBack)]
  {
    hide Release;
  }

  /** From a tidy state a step stays tidy exactly when it settles; otherwise it leaves a connection poisoned. */
  lemma TidyStep(s: State, max: nat, op: Op)
    requires Balanced(s, max) && Enabled(s, op) && Tidy(s)
    ensures Settles(s, op) ==> Tidy(Step(s, max, op))
    ensures !Settles(s, op) ==> Poisoned(Step(s, max, op), op.conn)
  {
    hide Step, Balanced, Acquire;
    match op
    case OpenTx(fault) => OpenShape(s, max, fault);
    case FinishTx(_, _, _) => FinishShape(s, max, op);
    case _ => QuietShape(s, max, op);
  }

  /**
    Nothing cures a poisoned connection: BEGIN is refused on it, and what is nested on it never reaches
    its bottom level.
   */
  lemma PoisonStays(s: State, max: nat, op: Op, c: Conn)
    requires Balanced(s, max) && Enabled(s, op) && Poisoned(s, c)
    ensures Poisoned(Step(s, max, op), c)
  {
    hide Step, Balanced, Acquire;
    match op
    case OpenTx(fault) => OpenShape(s, max, fault);
    case FinishTx(_, _, _) => FinishShape(s, max, op);
    case _ => QuietShape(s, max, op);
  }

  /** So it is poisoned for good, in every continuation. */
  lemma {:induction false} PoisonIsForGood(s: State, max: nat, ops: seq<Op>, c: Conn)
    requires Balanced(s, max) && Legal(s, max, ops) && Poisoned(s, c)
    ensures Poisoned(After(s, max, ops), c)
    decreases |ops|
  {
    hide Step, Balanced, Poisoned;
    if ops != [] {
      StepKeepsBalance(s, max, ops[0]);
      PoisonStays(s, max, ops[0], c);
      PoisonIsForGood(Step(s, max, ops[0]), max, ops[1..], c);
    }
  }

  lemma {:induction false} TidyRunIff(s: State, max: nat, ops: seq<Op>)
    requires Balanced(s, max) && Legal(s, max, ops) && Tidy(s)
    ensures Tidy(After(s, max, ops)) <==> AllSettle(s, max, ops)
    decreases |ops|
  {
    hide Step, Balanced, Tidy, Poisoned, Settles;
    if ops != [] {
      var v := Step(s, max, ops[0]);
      StepKeepsBalance(s, max, ops[0]);
      TidyStep(s, max, ops[0]);
      if Settles(s, ops[0]) {
        TidyRunIff(v, max, ops[1..]);
      } else {
        assert ops[0].FinishTx? by { OnlyFinishesFail(s, ops[0]); }
        PoisonIsForGood(v, max, ops[1..], ops[0].conn);
        PoisonedIsUntidy(After(v, max, ops[1..]), ops[0].conn);
      }
    }
  }

  lemma OnlyFinishesFail(s: State, op: Op)
    requires Enabled(s, op) && !Settles(s, op)
    ensures op.FinishTx?
  {
  }

  lemma PoisonedIsUntidy(s: State, c: Conn)
    requires Poisoned(s, c)
    ensures !Tidy(s)
  {
  }

  /**
    After any run, every connection in flight has one open level and every other none, exactly when
    each transaction of the run ended in a commit, or was opened at depth 0 and rolled back.
   */
  lemma ConnectionsTidyIff(max: nat, ops: seq<Op>)
    requires Legal(START, max, ops)
    ensures Tidy(After(START, max, ops)) <==> AllSettle(START, max, ops)
  {
    assert Balanced(START, max) && Tidy(START);
    TidyRunIff(START, max, ops);
  }

  lemma {:induction false} Reach(s: State, max: nat, ops: seq<Op>, mid: State, op: Op)
    requires Legal(s, max, ops) && After(s, max, ops) == mid && Enabled(mid, op)
    ensures Legal(s, max, ops + [op]) && After(s, max, ops + [op]) == Step(mid, max, op)
    decreases |ops|
  {
    if ops == [] {
      assert [op][1..] == [];
    } else {
      assert (ops + [op])[1..] == ops[1..] + [op];
      Reach(Step(s, max, ops[0]), max, ops[1..], mid, op);
    }
  }

  // Connections 0 and 1 with the given use, levels and depth.
  function Two(busy0: bool, busy1: bool, level0: nat, level1: nat, depth: int, held: map<Conn, Mode>,
               flights: map<Conn, int>): State {
    State(Provider(Pool([Entry(0, busy0, Write), Entry(1, busy1, Write)], false, 2), depth,
                   map[0 := level0, 1 := level1]),
          held, flights, {})
  }

  const SCRIPT: seq<Op> := [
    OpenTx(false), OpenTx(false), FinishTx(0, true, false),
    OpenTx(false), FinishTx(0, false, true), FinishTx(1, true, false)
  ]

  function Scene(k: nat): State
    requires k <= 6
  {
    match k
    case 0 => START
    case 1 => State(Provider(Pool([Entry(0, true, Write)], false, 1), 1, map[0 := 1]), map[0 := Write], map[0 := 0], {})
    case 2 => Two(true, true, 1, 1, 2, map[0 := Write, 1 := Write], map[0 := 0, 1 := 1])
    case 3 => Two(false, true, 0, 1, 1, map[1 := Write], map[1 := 1])
    case 4 => Two(true, true, 1, 1, 2, map[0 := Write, 1 := Write], map[0 := 1, 1 := 1])
    case 5 => Two(false, true, 1, 1, 1, map[1 := Write], map[1 := 1])
    case _ => Two(false, false, 1, 0, 0, map[], map[])
  }

  lemma OpenFollows(k: nat)
    requires k == 0 || k == 1 || k == 3
    ensures Step(Scene(k), 2, OpenTx(false)) == Scene(k + 1)
  {
  }

  lemma FinishFollows2()
    ensures Step(Scene(2), 2, FinishTx(0, true, false)) == Scene(3)
  {
  }

  lemma FinishFollows4()
    ensures Step(Scene(4), 2, FinishTx(0, false, true)) == Scene(5)
  {
  }

  lemma FinishFollows5()
    ensures Step(Scene(5), 2, FinishTx(1, true, false)) == Scene(6)
  {
  }

  lemma SceneFollows(k: nat)
    requires k < 6
    ensures Enabled(Scene(k), SCRIPT[k]) && Step(Scene(k), 2, SCRIPT[k]) == Scene(k + 1)
  {
    hide Step;
    if k == 0 || k == 1 || k == 3 {
      OpenFollows(k);
    } else {
      FinishFollows2();
      FinishFollows4();
      FinishFollows5();
    }
  }

  lemma {:induction false} Play(k: nat)
    requires k <= 6
    ensures Legal(START, 2, SCRIPT[..k]) && After(START, 2, SCRIPT[..k]) == Scene(k)
  {
    hide Step, Enabled, Scene;
    if k == 0 {
      assert Scene(0) == START by { SceneStart(); }
    } else {
      Play(k - 1);
      SceneFollows(k - 1);
      Reach(START, 2, SCRIPT[..k - 1], Scene(k - 1), SCRIPT[k - 1]);
      assert SCRIPT[..k] == SCRIPT[..k - 1] + [SCRIPT[k - 1]];
    }
  }

  lemma SceneStart()
    ensures Scene(0) == START
  {
  }

  /**
    A transaction that starts while another is open uses a savepoint on its own connection;
    if it fails, that connection goes back to the pool with the savepoint open, and the next
    transaction to find no other in flight is refused.
   */
  lemma OverlappingFailurePoisonsConnection() returns (ops: seq<Op>)
    ensures Legal(START, 2, ops)
    ensures
      var s := After(START, 2, ops);
      s.flights == map[] && s.provider.txDepth == 0 && Open(s.provider, 2, false).1 == None
  {
    ops := SCRIPT[..6];
    Play(6);
  }
}
