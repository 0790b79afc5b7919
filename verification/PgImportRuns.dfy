/** What an import leaves behind: re-runs, the count check, and the next serial id. */
module PgImportRuns {
  import opened Wrappers
  import opened PgImport

  // ---- One table -----------------------------------------------------------------------------

  predicate UniqueKeys(s: Schema, t: seq<Record>) {
    forall i, j | 0 <= i < j < |t| :: Key(s, t[i]) != Key(s, t[j])
  }

  ghost function Keys(s: Schema, t: seq<Record>): set<seq<Cell>> {
    set r | r in t :: Key(s, r)
  }

  lemma {:induction false} InsertGrows(s: Schema, t: seq<Record>, rows: seq<Record>)
    ensures t <= InsertAll(s, t, rows)
    decreases |rows|
  {
    if rows != [] {
      InsertGrows(s, if Blocked(s, t, rows[0]) then t else t + [rows[0]], rows[1..]);
    }
  }

  lemma {:induction false} KeylessAppends(s: Schema, t: seq<Record>, rows: seq<Record>)
    requires s.key == []
    ensures InsertAll(s, t, rows) == t + rows
    decreases |rows|
  {
    if rows != [] {
      KeylessAppends(s, t + [rows[0]], rows[1..]);
      assert t + [rows[0]] + rows[1..] == t + rows;
    }
  }

  lemma {:induction false} InsertBlocks(s: Schema, t: seq<Record>, rows: seq<Record>)
    requires s.key != []
    ensures forall x <- rows :: Blocked(s, InsertAll(s, t, rows), x)
    decreases |rows|
  {
    if rows != [] {
      var u := if Blocked(s, t, rows[0]) then t else t + [rows[0]];
      InsertBlocks(s, u, rows[1..]);
      assert Blocked(s, u, rows[0]) by {
        if !Blocked(s, t, rows[0]) {
          assert u[|t|] == rows[0] && rows[0] in u;
        }
      }
      InsertGrows(s, u, rows[1..]);
      BlockedInLarger(s, u, InsertAll(s, t, rows), rows[0]);
    }
  }

  lemma BlockedInLarger(s: Schema, t: seq<Record>, u: seq<Record>, row: Record)
    requires t <= u && Blocked(s, t, row)
    ensures Blocked(s, u, row)
  {
  }

  lemma {:induction false} BlockedIsNoOp(s: Schema, t: seq<Record>, rows: seq<Record>)
    requires forall x <- rows :: Blocked(s, t, x)
    ensures InsertAll(s, t, rows) == t
    decreases |rows|
  {
    if rows != [] {
      assert rows[0] in rows;
      BlockedIsNoOp(s, t, rows[1..]);
    }
  }

  lemma {:induction false} InsertedKeys(s: Schema, t: seq<Record>, rows: seq<Record>)
    requires s.key != [] && UniqueKeys(s, t)
    ensures UniqueKeys(s, InsertAll(s, t, rows))
    ensures Keys(s, InsertAll(s, t, rows)) == Keys(s, t) + Keys(s, rows)
    ensures forall x <- InsertAll(s, t, rows) :: x in t || x in rows
    decreases |rows|
  {
    if rows != [] {
      var x := rows[0];
      var u := if Blocked(s, t, x) then t else t + [x];
      StaysUnique(s, t, x);
      KeysAdd(s, t, x);
      InsertedKeys(s, u, rows[1..]);
      KeysOfFirst(s, rows);
      assert InsertAll(s, t, rows) == InsertAll(s, u, rows[1..]);
      hide *;
      assert forall r <- u :: r in t || r == x;
      assert x in rows && forall r <- rows[1..] :: r in rows;
    }
  }

  lemma StaysUnique(s: Schema, t: seq<Record>, x: Record)
    requires s.key != [] && UniqueKeys(s, t)
    ensures UniqueKeys(s, if Blocked(s, t, x) then t else t + [x])
  {
    assert forall r <- t :: r in t && (!Blocked(s, t, x) ==> Key(s, r) != Key(s, x));
  }

  lemma KeysOfFirst(s: Schema, rows: seq<Record>)
    requires rows != []
    ensures Keys(s, rows) == {Key(s, rows[0])} + Keys(s, rows[1..])
  {
    assert rows == [rows[0]] + rows[1..];
  }

  lemma KeysConcat(s: Schema, a: seq<Record>, b: seq<Record>)
    ensures Keys(s, a + b) == Keys(s, a) + Keys(s, b)
  {
  }

  lemma KeysAdd(s: Schema, t: seq<Record>, x: Record)
    requires s.key != []
    ensures Keys(s, if Blocked(s, t, x) then t else t + [x]) == Keys(s, t) + {Key(s, x)}
  {
  }

  lemma {:induction false} UniqueCounts(s: Schema, t: seq<Record>)
    requires UniqueKeys(s, t)
    ensures |Keys(s, t)| == |t|
    decreases |t|
  {
    if t == [] {
      assert Keys(s, t) == {};
    } else {
      var n := |t| - 1;
      UniqueCounts(s, t[..n]);
      assert t == t[..n] + [t[n]];
      KeysConcat(s, t[..n], [t[n]]);
      assert Keys(s, [t[n]]) == {Key(s, t[n])};
      assert Key(s, t[n]) !in Keys(s, t[..n]);
    }
  }

  predicate Covered(s: Schema, t: seq<Record>, rows: seq<Record>) {
    forall r <- t :: exists x <- rows :: Key(s, x) == Key(s, r)
  }

  /** The counts agree after an import exactly when every row already there shares its key with an exported one. */
  lemma CountMatchesIff(s: Schema, t: seq<Record>, rows: seq<Record>)
    requires s.key != [] && UniqueKeys(s, t) && UniqueKeys(s, rows)
    ensures |InsertAll(s, t, rows)| == |rows| <==> Covered(s, t, rows)
  {
    var a, b := Keys(s, t), Keys(s, rows);
    InsertedKeys(s, t, rows);
    UniqueCounts(s, InsertAll(s, t, rows));
    UniqueCounts(s, rows);
    assert a + b == b + (a - b) && |a + b| == |b| + |a - b|;
    assert a <= b <==> a - b == {};
    CoveredKeys(s, t, rows);
  }

  lemma CoveredKeys(s: Schema, t: seq<Record>, rows: seq<Record>)
    ensures Covered(s, t, rows) <==> Keys(s, t) <= Keys(s, rows)
  {
    if Keys(s, t) <= Keys(s, rows) {
      forall r | r in t ensures exists x <- rows :: Key(s, x) == Key(s, r) {
        assert Key(s, r) in Keys(s, t);
      }
    }
  }

  /** The contents agree exactly when those rows themselves are exported: a stricter condition. */
  lemma ContentsMatchIff(s: Schema, t: seq<Record>, rows: seq<Record>)
    requires s.key != [] && UniqueKeys(s, t) && UniqueKeys(s, rows)
    ensures (forall x :: x in InsertAll(s, t, rows) <==> x in rows) <==> (forall r <- t :: r in rows)
  {
    var u := InsertAll(s, t, rows);
    InsertedKeys(s, t, rows);
    InsertGrows(s, t, rows);
    InsertBlocks(s, t, rows);
    assert forall r <- t :: r in u;
    if forall r <- t :: r in rows {
      forall x | x in rows ensures x in u {
        var y :| y in u && Key(s, y) == Key(s, x);
        assert y in rows;
      }
    }
  }

  /** A row with an exported key but another content passes the count check and is kept. */
  lemma CountCheckMissesStaleRow()
    ensures exists s: Schema, t: seq<Record>, rows: seq<Record> ::
      && s.key != [] && UniqueKeys(s, t) && UniqueKeys(s, rows)
      && |InsertAll(s, t, rows)| == |rows| && InsertAll(s, t, rows) != rows
  {
    var s := Schema(["name"], false);
    var t := [map["name" := Text("plan"), "limit" := Int(1)]];
    var rows := [map["name" := Text("plan"), "limit" := Int(2)]];
    assert Key(s, t[0]) == Key(s, rows[0]) == [Text("plan")];
    assert t[0] in t && Blocked(s, t, rows[0]);
    assert rows[1..] == [] && InsertAll(s, t, rows) == t;
    assert t[0]["limit"] != rows[0]["limit"];
  }

  /** The sequence's next value is above every id in the table, and no further than it has to be. */
  lemma {:induction false} NextIdIsFree(t: seq<Record>)
    ensures forall r <- t :: CellOf(r, "id").Int? ==> CellOf(r, "id").value < NextId(t)
    ensures NextId(t) == 2 || (NextId(t) > 2 && exists r <- t :: CellOf(r, "id") == Int(NextId(t) - 1))
  {
    if t != [] {
      NextIdIsFree(t[1..]);
    }
  }

  // ---- The whole export ----------------------------------------------------------------------

  predicate Keyed(db: Db, b: Batch) {
    b.rows == [] || (b.table in db.schemas && db.schemas[b.table].key != [])
  }

  /** Importing `b` again would change nothing. */
  predicate Absorbed(db: Db, b: Batch) {
    b.rows == [] ||
    (b.table in db.tables && b.table in db.schemas &&
     var s := db.schemas[b.table];
     && (forall x <- ProjectedAll(b.rows, b.columns) :: Blocked(s, db.tables[b.table], x))
     && (s.serial ==> b.table in db.sequences && db.sequences[b.table] == NextId(db.tables[b.table])))
  }

  lemma ImportOneAbsorbs(db: Db, b: Batch)
    requires ImportOne(db, b).Some? && Keyed(db, b)
    ensures Absorbed(ImportOne(db, b).value, b)
  {
    if b.rows != [] {
      InsertBlocks(db.schemas[b.table], db.tables[b.table], ProjectedAll(b.rows, b.columns));
    }
  }

  lemma ImportOneKeepsAbsorbed(db: Db, b: Batch, earlier: Batch)
    requires ImportOne(db, b).Some? && Absorbed(db, earlier)
    ensures Absorbed(ImportOne(db, b).value, earlier)
  {
    if b.rows != [] && earlier.rows != [] && b.table == earlier.table {
      var s, t := db.schemas[b.table], db.tables[b.table];
      var u := InsertAll(s, t, ProjectedAll(b.rows, b.columns));
      InsertGrows(s, t, ProjectedAll(b.rows, b.columns));
      forall x | x in ProjectedAll(earlier.rows, earlier.columns) ensures Blocked(s, u, x) {
        BlockedInLarger(s, t, u, x);
      }
    }
  }

  lemma AbsorbedIsNoOp(db: Db, b: Batch)
    requires Absorbed(db, b)
    ensures ImportOne(db, b) == Some(db)
  {
    if b.rows != [] {
      var s, t := db.schemas[b.table], db.tables[b.table];
      BlockedIsNoOp(s, t, ProjectedAll(b.rows, b.columns));
      assert db.tables[b.table := t] == db.tables;
      assert s.serial ==> db.sequences[b.table := NextId(t)] == db.sequences;
    }
  }

  lemma {:induction false} ImportAllAbsorbs(db: Db, bs: seq<Batch>, done: seq<Batch>)
    requires ImportAll(db, bs).Some? && forall b <- bs :: Keyed(db, b)
    requires forall b <- done :: Absorbed(db, b)
    ensures forall b <- done + bs :: Absorbed(ImportAll(db, bs).value, b)
    decreases |bs|
  {
    hide ImportOne, Absorbed;
    if bs == [] {
      assert done + bs == done;
    } else {
      var next := ImportOne(db, bs[0]).value;
      assert bs[0] in bs;
      ImportOneAbsorbs(db, bs[0]);
      forall b | b in done ensures Absorbed(next, b) {
        ImportOneKeepsAbsorbed(db, bs[0], b);
      }
      SchemasKept(db, bs[0]);
      forall b | b in bs[1..] ensures Keyed(next, b) {
        assert b in bs && Keyed(db, b) && next.schemas == db.schemas;
      }
      ImportAllAbsorbs(next, bs[1..], done + [bs[0]]);
      assert done + [bs[0]] + bs[1..] == done + bs;
    }
  }

  lemma SchemasKept(db: Db, b: Batch)
    requires ImportOne(db, b).Some?
    ensures ImportOne(db, b).value.schemas == db.schemas
    ensures forall n <- db.tables :: n in ImportOne(db, b).value.tables &&
                                     |ImportOne(db, b).value.tables[n]| >= |db.tables[n]|
  {
    if b.rows != [] {
      InsertGrows(db.schemas[b.table], db.tables[b.table], ProjectedAll(b.rows, b.columns));
    }
  }

  lemma {:induction false} AllAbsorbedIsNoOp(db: Db, bs: seq<Batch>)
    requires forall b <- bs :: Absorbed(db, b)
    ensures ImportAll(db, bs) == Some(db)
    decreases |bs|
  {
    hide ImportOne, Absorbed;
    if bs != [] {
      assert bs[0] in bs;
      AbsorbedIsNoOp(db, bs[0]);
      AllAbsorbedIsNoOp(db, bs[1..]);
    }
  }

  // A table without a key takes its rows again, and no table ever shrinks.
  lemma {:induction false} KeylessGrows(db: Db, bs: seq<Batch>, k: nat)
    requires ImportAll(db, bs).Some? && k < |bs| && !Keyed(db, bs[k])
    requires bs[k].table in db.tables
    ensures var n := bs[k].table; var v := ImportAll(db, bs).value;
      n in v.tables && |v.tables[n]| > |db.tables[n]|
    decreases |bs|
  {
    var next := ImportOne(db, bs[0]).value;
    SchemasKept(db, bs[0]);
    if k == 0 {
      KeylessAppends(db.schemas[bs[0].table], db.tables[bs[0].table], ProjectedAll(bs[0].rows, bs[0].columns));
      NeverShrinks(next, bs[1..], bs[0].table);
    } else {
      KeylessGrows(next, bs[1..], k - 1);
    }
  }

  lemma {:induction false} NeverShrinks(db: Db, bs: seq<Batch>, n: string)
    requires ImportAll(db, bs).Some? && n in db.tables
    ensures var v := ImportAll(db, bs).value; n in v.tables && |v.tables[n]| >= |db.tables[n]|
    ensures ImportAll(db, bs).value.schemas == db.schemas
    decreases |bs|
  {
    hide ImportOne;
    if bs != [] {
      SchemasKept(db, bs[0]);
      NeverShrinks(ImportOne(db, bs[0]).value, bs[1..], n);
    }
  }

  lemma {:induction false} ImportedTablesExist(db: Db, bs: seq<Batch>)
    requires ImportAll(db, bs).Some?
    ensures forall b <- bs :: b.rows != [] ==> b.table in db.tables && b.table in db.schemas
    ensures ImportAll(db, bs).value.schemas == db.schemas && ImportAll(db, bs).value.tables.Keys == db.tables.Keys
    decreases |bs|
  {
    if bs != [] {
      ImportedTablesExist(ImportOne(db, bs[0]).value, bs[1..]);
    }
  }

  /** Importing the same export twice leaves what importing it once left exactly when every imported table has a key. */
  lemma ReimportIsNoOpIff(db: Db, bs: seq<Batch>)
    requires ImportAll(db, bs).Some?
    ensures var once := ImportAll(db, bs).value;
      ImportAll(once, bs) == Some(once) <==> forall b <- bs :: Keyed(db, b)
  {
    hide ImportOne, ImportAll;
    var once := ImportAll(db, bs).value;
    ImportedTablesExist(db, bs);
    if forall b <- bs :: Keyed(db, b) {
      ImportAllAbsorbs(db, bs, []);
      assert [] + bs == bs;
      AllAbsorbedIsNoOp(once, bs);
    } else {
      var k: nat :| k < |bs| && !Keyed(db, bs[k]);
      assert bs[k] in bs && bs[k].table in once.tables;
      if ImportAll(once, bs).Some? {
        KeylessGrows(once, bs, k);
      }
    }
  }

  /** All rows of the export, line after line. */
  function AllRows(bs: seq<Batch>): seq<Record> {
    if bs == [] then [] else AllRows(bs[..|bs| - 1]) + bs[|bs| - 1].rows
  }

  function WithRows(bs: seq<Batch>): set<nat> {
    set i: nat | i < |bs| && bs[i].rows != []
  }

  /** The counts an import returns: every row of the export, and the lines that have any. */
  lemma {:induction false} SummaryCounts(bs: seq<Batch>)
    ensures TotalRows(bs) == |AllRows(bs)| && TablesTouched(bs) == |WithRows(bs)|
    decreases |bs|
  {
    if bs == [] {
      assert WithRows(bs) == {};
    } else {
      var n := |bs| - 1;
      SummaryCounts(bs[..n]);
      TotalsSnoc(bs[..n], bs[n]);
      assert bs == bs[..n] + [bs[n]];
      assert WithRows(bs) == WithRows(bs[..n]) + if bs[n].rows != [] then {n} else {};
    }
  }

  lemma {:induction false} TotalsSnoc(bs: seq<Batch>, b: Batch)
    ensures TotalRows(bs + [b]) == TotalRows(bs) + |b.rows|
    ensures TablesTouched(bs + [b]) == TablesTouched(bs) + if b.rows != [] then 1 else 0
    decreases |bs|
  {
    if bs == [] {
      assert bs + [b] == [b] && [b][1..] == [];
    } else {
      TotalsSnoc(bs[1..], b);
      assert (bs + [b])[1..] == bs[1..] + [b];
    }
  }

  // ---- Failed imports ------------------------------------------------------------------------

  /** The import moves the sequence of table `n`. */
  predicate Moves(db: Db, bs: seq<Batch>, n: string) {
    exists b <- bs :: b.table == n && b.rows != [] && n in db.schemas && db.schemas[n].serial
  }

  predicate Agree(a: Db, b: Db, n: string) {
    (n in a.sequences <==> n in b.sequences) && (n in a.sequences ==> a.sequences[n] == b.sequences[n])
  }

  lemma MovesStep(db: Db, next: Db, bs: seq<Batch>, n: string)
    requires bs != [] && next.schemas == db.schemas
    ensures Moves(db, bs, n) <==> Moves(db, [bs[0]], n) || Moves(next, bs[1..], n)
  {
    assert bs[0] in bs && bs[0] in [bs[0]];
    assert forall b <- bs :: b == bs[0] || b in bs[1..];
  }

  lemma {:induction false} SequencesAfter(db: Db, bs: seq<Batch>, n: string)
    requires ImportAll(db, bs).Some?
    ensures var v := ImportAll(db, bs).value;
      if Moves(db, bs, n) then n in v.tables && n in v.sequences && v.sequences[n] == NextId(v.tables[n])
      else Agree(v, db, n)
    decreases |bs|
  {
    if bs != [] {
      var next := ImportOne(db, bs[0]).value;
      SequencesAfter(next, bs[1..], n);
      MovesStep(db, next, bs, n);
      if Moves(db, [bs[0]], n) && !Moves(next, bs[1..], n) {
        UnmovedTableKept(next, bs[1..], n);
      }
    }
  }

  lemma {:induction false} UnmovedTableKept(db: Db, bs: seq<Batch>, n: string)
    requires ImportAll(db, bs).Some? && !Moves(db, bs, n)
    requires n in db.tables && n in db.schemas && db.schemas[n].serial
    ensures n in ImportAll(db, bs).value.tables && ImportAll(db, bs).value.tables[n] == db.tables[n]
    decreases |bs|
  {
    if bs != [] {
      var next := ImportOne(db, bs[0]).value;
      MovesStep(db, next, bs, n);
      assert bs[0] in [bs[0]];
      UnmovedTableKept(next, bs[1..], n);
    }
  }

  // Rows are inserted without a look at the sequences.
  lemma {:induction false} SequencesUnread(a: Db, b: Db, bs: seq<Batch>)
    requires a.schemas == b.schemas && a.tables == b.tables && ImportAll(a, bs).Some?
    ensures ImportAll(b, bs).Some?
    ensures ImportAll(a, bs).value.schemas == ImportAll(b, bs).value.schemas
    ensures ImportAll(a, bs).value.tables == ImportAll(b, bs).value.tables
    decreases |bs|
  {
    if bs != [] {
      SequencesUnread(ImportOne(a, bs[0]).value, ImportOne(b, bs[0]).value, bs[1..]);
    }
  }

  lemma SequencesEqual(a: Db, b: Db)
    requires a.schemas == b.schemas && a.tables == b.tables
    ensures a == b <==> forall n :: Agree(a, b, n)
  {
    if forall n :: Agree(a, b, n) {
      assert forall n :: n in a.sequences <==> n in b.sequences by {
        forall n ensures n in a.sequences <==> n in b.sequences {
          assert Agree(a, b, n);
        }
      }
      assert forall n <- a.sequences :: Agree(a, b, n);
      assert a.sequences == b.sequences;
    }
  }

  /**
    A failed import leaves the database unchanged exactly when each sequence that the lines before the
    fault move already had the value they give it.
   */
  lemma FailureIsCleanIff(db: Db, a: Attempt)
    requires !Succeeds(db, a)
    ensures ImportAll(db, a.bs[..LinesDone(db, a)]).Some?
    ensures var before := a.bs[..LinesDone(db, a)]; var done := ImportAll(db, before).value;
      Leaves(db, a) == db <==> forall n | Moves(db, before, n) ::
        n in db.sequences && n in done.tables && db.sequences[n] == NextId(done.tables[n])
  {
    hide ImportAll, Moves;
    ImportableSplit(db, a.bs, LinesDone(db, a));
    var before := a.bs[..LinesDone(db, a)];
    var done := ImportAll(db, before).value;
    var left := Leaves(db, a);
    SequencesEqual(left, db);
    forall n
      ensures Agree(left, db, n) <==> (Moves(db, before, n) ==>
                n in db.sequences && n in done.tables && db.sequences[n] == NextId(done.tables[n]))
    {
      SequencesAfter(db, before, n);
    }
  }

  lemma FaultAfterOne(db: Db, line: Batch)
    requires ImportOne(db, line).Some?
    ensures var a := Attempt([line, line], Some(1));
      && LinesDone(db, a) == 1 && !Succeeds(db, a) && a.bs[..1] == [line]
      && ImportAll(db, [line]) == ImportOne(db, line)
  {
    hide ImportOne;
    assert [line, line][1..] == [line] && [line][1..] == [];
  }

  /** Rows of a serial table that are rolled back have moved its sequence for good. */
  lemma RolledBackRowsMoveSequence()
    ensures exists db: Db, a: Attempt :: !Succeeds(db, a) && Leaves(db, a) != db
  {
    var db := Db(map["users" := Schema(["id"], true)], map["users" := []], map["users" := 1]);
    var line := Batch("users", ["id"], [map["id" := Int(5)]]);
    var a := Attempt([line, line], Some(1));
    var after := ImportOne(db, line).value;
    FaultAfterOne(db, line);
    NextIdIsFree(after.tables["users"]);
    assert after.sequences["users"] >= 2;
    hide ImportOne, ImportAll, LinesDone, Succeeds;
    ImportableSplit(db, a.bs, 1);
    assert Leaves(db, a).sequences == after.sequences;
  }

  // ---- Retrying ------------------------------------------------------------------------------

  ghost function LeavesAll(db: Db, tries: seq<Attempt>): Db
    decreases |tries|
  {
    if tries == [] then db else LeavesAll(Leaves(db, tries[0]), tries[1..])
  }

  ghost predicate AllFail(db: Db, tries: seq<Attempt>)
    decreases |tries|
  {
    tries == [] || (!Succeeds(db, tries[0]) && AllFail(Leaves(db, tries[0]), tries[1..]))
  }

  lemma PrefixMoves(db: Db, bs: seq<Batch>, k: nat, n: string)
    requires k <= |bs| && Moves(db, bs[..k], n)
    ensures Moves(db, bs, n)
  {
  }

  lemma {:induction false} FailuresMoveSequencesOnly(db: Db, tries: seq<Attempt>)
    requires AllFail(db, tries)
    ensures LeavesAll(db, tries).schemas == db.schemas && LeavesAll(db, tries).tables == db.tables
    ensures forall n | forall a <- tries :: !Moves(db, a.bs, n) :: Agree(LeavesAll(db, tries), db, n)
    decreases |tries|
  {
    if tries != [] {
      hide Succeeds, ImportAll, Moves, LinesDone;
      var a, next := tries[0], Leaves(db, tries[0]);
      ImportableSplit(db, a.bs, LinesDone(db, a));
      FailuresMoveSequencesOnly(next, tries[1..]);
      forall n | forall a <- tries :: !Moves(db, a.bs, n)
        ensures Agree(LeavesAll(db, tries), db, n)
      {
        assert a in tries;
        if Moves(db, a.bs[..LinesDone(db, a)], n) {
          PrefixMoves(db, a.bs, LinesDone(db, a), n);
        }
        SequencesAfter(db, a.bs[..LinesDone(db, a)], n);
        forall e | e in tries[1..] ensures !Moves(next, e.bs, n) {
          assert e in tries && !Moves(db, e.bs, n);
          SchemasDecideMoves(db, next, e.bs, n);
        }
        assert Agree(next, db, n) && Agree(LeavesAll(next, tries[1..]), next, n);
      }
    }
  }

  lemma SchemasDecideMoves(a: Db, b: Db, bs: seq<Batch>, n: string)
    requires a.schemas == b.schemas
    ensures Moves(a, bs, n) <==> Moves(b, bs, n)
  {
  }

  /**
    After any failed imports a successful one leaves what it would have left alone exactly when each
    sequence it does not set itself still has its first value.
   */
  lemma RetryConvergesIff(db: Db, tries: seq<Attempt>, bs: seq<Batch>)
    requires AllFail(db, tries) && ImportAll(db, bs).Some?
    ensures ImportAll(LeavesAll(db, tries), bs).Some?
    ensures ImportAll(LeavesAll(db, tries), bs) == ImportAll(db, bs)
       <==> forall n | !Moves(db, bs, n) :: Agree(LeavesAll(db, tries), db, n)
  {
    hide ImportAll, Moves, LeavesAll, AllFail;
    var left := LeavesAll(db, tries);
    FailuresMoveSequencesOnly(db, tries);
    SequencesUnread(db, left, bs);
    var v, w := ImportAll(db, bs).value, ImportAll(left, bs).value;
    SequencesEqual(w, v);
    forall n
      ensures Agree(w, v, n) <==> (!Moves(db, bs, n) ==> Agree(left, db, n))
    {
      SchemasDecideMoves(db, left, bs, n);
      SequencesAfter(db, bs, n);
      SequencesAfter(left, bs, n);
    }
  }

  /** So the retries of one export, however often and wherever they stop, end where one import ends. */
  lemma RetriesConverge(db: Db, tries: seq<Attempt>, bs: seq<Batch>)
    requires AllFail(db, tries) && ImportAll(db, bs).Some?
    requires forall a <- tries, n | Moves(db, a.bs, n) :: Moves(db, bs, n)
    ensures ImportAll(LeavesAll(db, tries), bs) == ImportAll(db, bs)
  {
    hide *;
    RetryConvergesIff(db, tries, bs);
    FailuresMoveSequencesOnly(db, tries);
  }

  // Sequences belong to serial tables, and the next value of each is above every id in its table.
  predicate IdsFree(db: Db) {
    forall n <- db.sequences ::
      && n in db.schemas && db.schemas[n].serial && n in db.tables
      && forall r <- db.tables[n] :: CellOf(r, "id").Int? ==> CellOf(r, "id").value < db.sequences[n]
  }

  lemma {:induction false} TablesGrow(db: Db, bs: seq<Batch>, n: string)
    requires ImportAll(db, bs).Some? && n in db.tables
    ensures n in ImportAll(db, bs).value.tables && db.tables[n] <= ImportAll(db, bs).value.tables[n]
    decreases |bs|
  {
    if bs != [] {
      var next := ImportOne(db, bs[0]).value;
      if bs[0].rows != [] && bs[0].table == n {
        InsertGrows(db.schemas[n], db.tables[n], ProjectedAll(bs[0].rows, bs[0].columns));
      }
      TablesGrow(next, bs[1..], n);
    }
  }

  lemma MovedIsSerial(db: Db, bs: seq<Batch>, n: string)
    requires Moves(db, bs, n)
    ensures n in db.schemas && db.schemas[n].serial
  {
  }

  lemma IdsFreeAfterOne(db: Db, a: Attempt)
    requires IdsFree(db)
    ensures IdsFree(Leaves(db, a))
  {
    hide ImportAll, ImportOne, InsertAll, Importable, Moves;
    ImportableSplit(db, a.bs, LinesDone(db, a));
    var before := a.bs[..LinesDone(db, a)];
    var done := ImportAll(db, before).value;
    ImportedTablesExist(db, before);
    forall n | n in Leaves(db, a).sequences
      ensures n in db.schemas && db.schemas[n].serial && n in db.tables
      ensures var left := Leaves(db, a);
        forall r <- left.tables[n] :: CellOf(r, "id").Int? ==> CellOf(r, "id").value < left.sequences[n]
    {
      SequencesAfter(db, before, n);
      if Moves(db, before, n) {
        MovedIsSerial(db, before, n);
        NextIdIsFree(done.tables[n]);
        TablesGrow(db, before, n);
      } else {
        UnmovedTableKept(db, before, n);
      }
    }
  }

  /** No history of imports, failed or not, makes the next id of a serial table collide. */
  lemma {:induction false} IdsStayFree(db: Db, tries: seq<Attempt>)
    requires IdsFree(db)
    ensures IdsFree(LeavesAll(db, tries))
    decreases |tries|
  {
    hide IdsFree, Leaves;
    if tries != [] {
      IdsFreeAfterOne(db, tries[0]);
      IdsStayFree(Leaves(db, tries[0]), tries[1..]);
    }
  }

  // ---- The count check over the whole export -------------------------------------------------

  predicate DistinctTables(bs: seq<Batch>) {
    forall i, j | 0 <= i < j < |bs| :: bs[i].table != bs[j].table
  }

  lemma {:induction false} OtherTablesKept(db: Db, bs: seq<Batch>, n: string)
    requires ImportAll(db, bs).Some? && n in db.tables && forall b <- bs :: b.table != n
    ensures n in ImportAll(db, bs).value.tables && ImportAll(db, bs).value.tables[n] == db.tables[n]
    decreases |bs|
  {
    if bs != [] {
      assert bs[0] in bs;
      OtherTablesKept(ImportOne(db, bs[0]).value, bs[1..], n);
    }
  }

  lemma {:induction false} EachTableImported(db: Db, bs: seq<Batch>, k: nat)
    requires ImportAll(db, bs).Some? && DistinctTables(bs) && k < |bs| && bs[k].rows != []
    requires bs[k].table in db.tables && bs[k].table in db.schemas
    ensures bs[k].table in ImportAll(db, bs).value.tables
    ensures ImportAll(db, bs).value.tables[bs[k].table] ==
      InsertAll(db.schemas[bs[k].table], db.tables[bs[k].table], ProjectedAll(bs[k].rows, bs[k].columns))
    decreases |bs|
  {
    var next := ImportOne(db, bs[0]).value;
    if k == 0 {
      OtherTablesKept(next, bs[1..], bs[0].table);
    } else {
      EachTableImported(next, bs[1..], k - 1);
    }
  }

  lemma {:induction false} MismatchesEmptyIff(db: Db, bs: seq<Batch>)
    requires forall b <- bs :: b.table in db.tables
    ensures Mismatches(db, bs).Some?
    ensures Mismatches(db, bs).value == [] <==> forall b <- bs :: |db.tables[b.table]| == |b.rows|
    decreases |bs|
  {
    if bs != [] {
      assert bs[0] in bs;
      MismatchesEmptyIff(db, bs[1..]);
      assert forall b <- bs :: b == bs[0] || b in bs[1..];
    }
  }

  /** The check lists each table whose count differs, with the export's count and the table's, and nothing else. */
  lemma {:induction false} MismatchesExactly(db: Db, bs: seq<Batch>)
    ensures Mismatches(db, bs).None? <==> exists b <- bs :: b.table !in db.tables
    ensures Mismatches(db, bs).Some? ==> forall m :: m in Mismatches(db, bs).value <==>
      exists b <- bs :: b.table in db.tables && m.table == b.table && m.expected == |b.rows| != m.actual
                        && m.actual == |db.tables[b.table]|
    decreases |bs|
  {
    if bs != [] {
      MismatchesExactly(db, bs[1..]);
      assert bs[0] in bs && forall b <- bs :: b == bs[0] || b in bs[1..];
    }
  }

  // The target honours its keys, and so does the export.
  predicate Sound(db: Db, b: Batch) {
    && b.rows != [] && b.table in db.tables && b.table in db.schemas
    && db.schemas[b.table].key != [] && UniqueKeys(db.schemas[b.table], db.tables[b.table])
    && UniqueKeys(db.schemas[b.table], ProjectedAll(b.rows, b.columns))
  }

  ghost predicate CoveredIn(db: Db, b: Batch)
    requires Sound(db, b)
  {
    Covered(db.schemas[b.table], db.tables[b.table], ProjectedAll(b.rows, b.columns))
  }

  /** After an import the check reports nothing exactly when every row that was there beforehand has an exported key. */
  lemma VerifyPassesIff(db: Db, bs: seq<Batch>)
    requires DistinctTables(bs) && forall b <- bs :: Sound(db, b)
    requires ImportAll(db, bs).Some?
    ensures Mismatches(ImportAll(db, bs).value, bs) == Some([])
       <==> forall b | b in bs :: Sound(db, b) && CoveredIn(db, b)
  {
    hide ImportAll, ImportOne, Covered;
    var v := ImportAll(db, bs).value;
    ImportedTablesExist(db, bs);
    forall b | b in bs
      ensures b.table in v.tables && (|v.tables[b.table]| == |b.rows| <==> CoveredIn(db, b))
    {
      var k :| 0 <= k < |bs| && bs[k] == b;
      EachTableImported(db, bs, k);
      CountMatchesIff(db.schemas[b.table], db.tables[b.table], ProjectedAll(b.rows, b.columns));
    }
    MismatchesEmptyIff(v, bs);
  }

  /** Rows cut to the first row's columns lose nothing exactly when they have those columns and no others. */
  lemma ProjectionIsExactIff(row: Record, columns: seq<string>)
    ensures Projected(row, columns) == row <==> row.Keys == (set c | c in columns)
  {
  }
}
