/**
  The SQLite-to-PostgreSQL import: parameter numbering of the batched INSERT, what an import
  leaves in a table that already held rows, re-running it, and what the count check can see.
 */
module PgImport {
  import opened Wrappers

  // `Undefined` is a key missing from a JSON row.
  datatype Cell = Null | Int(value: int) | Text(text: string)
  type Record = map<string, Cell>

  /** One line of the export; `columns` are the keys of its first row, in their order. */
  datatype Batch = Batch(table: string, columns: seq<string>, rows: seq<Record>)

  // The primary key's columns ([] for a table without one) and whether `id` is a serial column.
  datatype Schema = Schema(key: seq<string>, serial: bool)

  datatype Db = Db(schemas: map<string, Schema>, tables: map<string, seq<Record>>, sequences: map<string, int>)

  const BATCH_SIZE: nat := 500

  // ---- PostgreSQL's side ---------------------------------------------------------------------

  function CellOf(row: Record, column: string): Cell {
    if column in row then row[column] else Null
  }

  // Two nulls count as equal here. PostgreSQL has none in a key: such a line is rejected, so a fault.
  function Key(s: Schema, row: Record): seq<Cell> {
    seq(|s.key|, i requires 0 <= i < |s.key| => CellOf(row, s.key[i]))
  }

  predicate Blocked(s: Schema, t: seq<Record>, row: Record) {
    s.key != [] && exists r <- t :: Key(s, r) == Key(s, row)
  }

  /** INSERT ... ON CONFLICT DO NOTHING, row after row. */
  function InsertAll(s: Schema, t: seq<Record>, rows: seq<Record>): seq<Record>
    decreases |rows|
  {
    if rows == [] then t
    else InsertAll(s, if Blocked(s, t, rows[0]) then t else t + [rows[0]], rows[1..])
  }

  function Zip(columns: seq<string>, cells: seq<Cell>): Record
    requires |columns| == |cells|
  {
    if columns == [] then map[]
    else Zip(columns[..|columns| - 1], cells[..|cells| - 1])[columns[|columns| - 1] := cells[|cells| - 1]]
  }

  /** The rows of a VALUES list: placeholder n stands for the n-th parameter. */
  function Bind(columns: seq<string>, placeholders: seq<seq<nat>>, values: seq<Cell>): seq<Record>
    requires forall ph <- placeholders :: |ph| == |columns| && forall n <- ph :: 1 <= n <= |values|
  {
    seq(|placeholders|, j requires 0 <= j < |placeholders| =>
      Zip(columns, seq(|columns|, c requires 0 <= c < |columns| =>
        assert placeholders[j] in placeholders && placeholders[j][c] in placeholders[j];
        values[placeholders[j][c] - 1])))
  }

  function MaxId(t: seq<Record>): int {
    if t == [] then 1
    else
      var rest := MaxId(t[1..]);
      var id := CellOf(t[0], "id");
      if id.Int? && id.value > rest then id.value else rest
  }

  /** What the next insert gets: `setval` marks its value as used. */
  function NextId(t: seq<Record>): int {
    MaxId(t) + 1
  }

  // ---- The import as functions ---------------------------------------------------------------

  function Projected(row: Record, columns: seq<string>): Record {
    map c | c in columns :: CellOf(row, c)
  }

  function ProjectedAll(rows: seq<Record>, columns: seq<string>): seq<Record> {
    seq(|rows|, i requires 0 <= i < |rows| => Projected(rows[i], columns))
  }

  /** One line of the export; None when the target has no such table. */
  function ImportOne(db: Db, b: Batch): Option<Db> {
    if b.rows == [] then Some(db)
    else if b.table !in db.tables || b.table !in db.schemas then None
    else
      var s := db.schemas[b.table];
      var t := InsertAll(s, db.tables[b.table], ProjectedAll(b.rows, b.columns));
      Some(db.(tables := db.tables[b.table := t],
               sequences := if s.serial then db.sequences[b.table := NextId(t)] else db.sequences))
  }

  function ImportAll(db: Db, bs: seq<Batch>): Option<Db>
    decreases |bs|
  {
    if bs == [] then Some(db)
    else
      var next := ImportOne(db, bs[0]);
      if next.None? then None else ImportAll(next.value, bs[1..])
  }

  /** How many lines, from the first, name tables that exist. */
  function Importable(db: Db, bs: seq<Batch>): (n: nat)
    ensures n <= |bs|
    decreases |bs|
  {
    if bs == [] || ImportOne(db, bs[0]).None? then 0 else 1 + Importable(ImportOne(db, bs[0]).value, bs[1..])
  }

  /** `faultAt` is the line whose statements are rejected, or the export's length for COMMIT; None for no fault. */
  datatype Attempt = Attempt(bs: seq<Batch>, faultAt: Option<nat>)

  predicate Succeeds(db: Db, a: Attempt) {
    Importable(db, a.bs) == |a.bs| && (a.faultAt.None? || a.faultAt.value > |a.bs|)
  }

  /** The lines whose statements all took effect before the import ended. */
  function LinesDone(db: Db, a: Attempt): (n: nat)
    ensures n <= |a.bs|
  {
    var n := Importable(db, a.bs);
    if a.faultAt.Some? && a.faultAt.value < n then a.faultAt.value else n
  }

  lemma {:induction false} ImportableSplit(db: Db, bs: seq<Batch>, n: nat)
    requires n <= Importable(db, bs)
    ensures ImportAll(db, bs[..n]).Some?
    ensures Importable(db, bs) == n + Importable(ImportAll(db, bs[..n]).value, bs[n..])
    decreases n
  {
    hide ImportOne;
    if n == 0 {
      assert bs[0..] == bs;
    } else {
      ImportableSplit(ImportOne(db, bs[0]).value, bs[1..], n - 1);
      assert bs[..n][1..] == bs[1..][..n - 1] && bs[n..] == bs[1..][n - 1..];
    }
  }

  lemma {:induction false} ImportableIff(db: Db, bs: seq<Batch>)
    ensures Importable(db, bs) == |bs| <==> ImportAll(db, bs).Some?
    decreases |bs|
  {
    hide ImportOne;
    if bs != [] && ImportOne(db, bs[0]).Some? {
      ImportableIff(ImportOne(db, bs[0]).value, bs[1..]);
    }
  }

  /** ROLLBACK undoes the rows; PostgreSQL does not undo `setval`. */
  ghost function Leaves(db: Db, a: Attempt): Db {
    ImportableSplit(db, a.bs, LinesDone(db, a));
    var done := ImportAll(db, a.bs[..LinesDone(db, a)]).value;
    if Succeeds(db, a) then done else db.(sequences := done.sequences)
  }

  datatype Mismatch = Mismatch(table: string, expected: nat, actual: nat)

  /** None when a table to be counted does not exist. */
  function Mismatches(db: Db, bs: seq<Batch>): Option<seq<Mismatch>>
    decreases |bs|
  {
    if bs == [] then Some([])
    else if bs[0].table !in db.tables then None
    else
      var rest := Mismatches(db, bs[1..]);
      var actual := |db.tables[bs[0].table]|;
      if rest.None? then None
      else Some((if actual != |bs[0].rows| then [Mismatch(bs[0].table, |bs[0].rows|, actual)] else []) + rest.value)
  }

  function TablesTouched(bs: seq<Batch>): nat {
    if bs == [] then 0 else (if bs[0].rows == [] then 0 else 1) + TablesTouched(bs[1..])
  }

  function TotalRows(bs: seq<Batch>): nat {
    if bs == [] then 0 else |bs[0].rows| + TotalRows(bs[1..])
  }

  // ---- Building one INSERT -------------------------------------------------------------------

  /** Placeholder `$(j*m+c+1)` stands at row j, column c and names that row's value of that column. */
  predicate Numbered(chunk: seq<Record>, columns: seq<string>, values: seq<Cell>, placeholders: seq<seq<nat>>) {
    && |placeholders| <= |chunk|
    && forall j | 0 <= j < |placeholders| :: RowNumbered(chunk[j], columns, values, placeholders[j], j * |columns| + 1)
  }

  predicate RowNumbered(row: Record, columns: seq<string>, values: seq<Cell>, ph: seq<nat>, first: nat) {
    && |ph| <= |columns|
    && forall c | 0 <= c < |ph| ::
      ph[c] == first + c && 1 <= ph[c] <= |values| && values[ph[c] - 1] == CellOf(row, columns[c])
  }

  lemma NumberedStays(chunk: seq<Record>, columns: seq<string>, values: seq<Cell>, more: seq<Cell>,
                      placeholders: seq<seq<nat>>)
    requires Numbered(chunk, columns, values, placeholders) && values <= more
    ensures Numbered(chunk, columns, more, placeholders)
  {
  }

  // The inner loop: one row's values, and its placeholders from `first` on.
  method PushRow(row: Record, columns: seq<string>, before: seq<Cell>)
    returns (values: seq<Cell>, rowPlaceholders: seq<nat>)
    ensures before <= values && |values| == |before| + |columns| && |rowPlaceholders| == |columns|
    ensures RowNumbered(row, columns, values, rowPlaceholders, |before| + 1)
  {
    values, rowPlaceholders := before, [];
    var p := |before| + 1;
    for c := 0 to |columns|
      invariant |rowPlaceholders| == c && |values| == |before| + c && p == |before| + 1 + c
      invariant before <= values
      invariant RowNumbered(row, columns, values, rowPlaceholders, |before| + 1)
    {
      values := values + [if columns[c] in row then row[columns[c]] else Null];
      rowPlaceholders := rowPlaceholders + [p];
      p := p + 1;
    }
  }

  method BuildInsert(chunk: seq<Record>, columns: seq<string>) returns (values: seq<Cell>, placeholders: seq<seq<nat>>)
    ensures |placeholders| == |chunk| && |values| == |chunk| * |columns|
    ensures Numbered(chunk, columns, values, placeholders)
    ensures forall ph <- placeholders :: |ph| == |columns|
  {
    values, placeholders := [], [];
    for j := 0 to |chunk|
      invariant |placeholders| == j && |values| == j * |columns|
      invariant Numbered(chunk, columns, values, placeholders)
      invariant forall ph <- placeholders :: |ph| == |columns|
    {
      ghost var before := values;
      var rowPlaceholders;
      values, rowPlaceholders := PushRow(chunk[j], columns, values);
      NumberedStays(chunk, columns, before, values, placeholders);
      assert (j + 1) * |columns| == j * |columns| + |columns|;
      hide RowNumbered;
      placeholders := placeholders + [rowPlaceholders];
    }
  }

  lemma {:induction false} ZipProjects(row: Record, columns: seq<string>, cells: seq<Cell>)
    requires |columns| == |cells| && forall c | 0 <= c < |columns| :: cells[c] == CellOf(row, columns[c])
    ensures Zip(columns, cells) == Projected(row, columns)
    decreases |columns|
  {
    if columns != [] {
      var n := |columns| - 1;
      ZipProjects(row, columns[..n], cells[..n]);
      assert columns == columns[..n] + [columns[n]];
    }
  }

  lemma NumberedInRange(chunk: seq<Record>, columns: seq<string>, values: seq<Cell>, placeholders: seq<seq<nat>>)
    requires Numbered(chunk, columns, values, placeholders) && forall ph <- placeholders :: |ph| == |columns|
    ensures forall ph <- placeholders, n <- ph :: 1 <= n <= |values|
  {
  }

  /** So the statement inserts exactly the chunk's rows, cut to the columns. */
  lemma BoundRows(chunk: seq<Record>, columns: seq<string>, values: seq<Cell>, placeholders: seq<seq<nat>>)
    requires Numbered(chunk, columns, values, placeholders) && |placeholders| == |chunk|
    requires forall ph <- placeholders :: |ph| == |columns|
    ensures forall ph <- placeholders, n <- ph :: 1 <= n <= |values|
    ensures Bind(columns, placeholders, values) == ProjectedAll(chunk, columns)
  {
    NumberedInRange(chunk, columns, values, placeholders);
    forall j | 0 <= j < |chunk|
      ensures Bind(columns, placeholders, values)[j] == Projected(chunk[j], columns)
    {
      var cells := seq(|columns|, c requires 0 <= c < |columns| =>
        assert placeholders[j] in placeholders && placeholders[j][c] in placeholders[j];
        values[placeholders[j][c] - 1]);
      assert RowNumbered(chunk[j], columns, values, placeholders[j], j * |columns| + 1);
      ZipProjects(chunk[j], columns, cells);
      assert Bind(columns, placeholders, values)[j] == Zip(columns, cells);
    }
  }

  // ---- The importing connection --------------------------------------------------------------

  lemma {:induction false} InsertSplit(s: Schema, t: seq<Record>, a: seq<Record>, b: seq<Record>)
    ensures InsertAll(s, t, a + b) == InsertAll(s, InsertAll(s, t, a), b)
    decreases |a|
  {
    if a == [] {
      assert a + b == b;
    } else {
      assert (a + b)[1..] == a[1..] + b;
      InsertSplit(s, if Blocked(s, t, a[0]) then t else t + [a[0]], a[1..], b);
    }
  }

  lemma ProjectedSplit(rows: seq<Record>, columns: seq<string>, i: nat, k: nat)
    requires i <= k <= |rows|
    ensures ProjectedAll(rows[..k], columns) == ProjectedAll(rows[..i], columns) + ProjectedAll(rows[i..k], columns)
  {
  }

  lemma NothingInserted(s: Schema, t: seq<Record>, rows: seq<Record>, columns: seq<string>)
    ensures InsertAll(s, t, ProjectedAll(rows[..0], columns)) == t
  {
  }

  lemma Unimported(db: Db, bs: seq<Batch>)
    ensures ImportAll(db, bs[..0]) == Some(db) && bs[0..] == bs
  {
  }

  lemma ImportStep(db: Db, bs: seq<Batch>, i: nat)
    requires i < |bs| && i <= Importable(db, bs) && ImportAll(db, bs[..i]).Some?
    ensures ImportAll(db, bs[..i + 1]) == ImportOne(ImportAll(db, bs[..i]).value, bs[i])
    ensures Importable(db, bs) == i <==> ImportOne(ImportAll(db, bs[..i]).value, bs[i]).None?
    ensures bs[i].rows == [] ==> ImportOne(ImportAll(db, bs[..i]).value, bs[i]) == ImportAll(db, bs[..i])
  {
    var mid := ImportAll(db, bs[..i]).value;
    ImportableSplit(db, bs, i);
    assert bs[i..][0] == bs[i] && bs[..i + 1] == bs[..i] + [bs[i]];
    ImportSplit(db, bs[..i], [bs[i]]);
    assert ImportAll(mid, [bs[i]]) == ImportOne(mid, bs[i]);
  }

  lemma {:induction false} ImportSplit(db: Db, a: seq<Batch>, b: seq<Batch>)
    requires ImportAll(db, a).Some?
    ensures ImportAll(db, a + b) == ImportAll(ImportAll(db, a).value, b)
    decreases |a|
  {
    hide ImportOne;
    if a == [] {
      assert a + b == b;
    } else {
      assert (a + b)[1..] == a[1..] + b;
      ImportSplit(ImportOne(db, a[0]).value, a[1..], b);
    }
  }

  class PgClient {
    var schemas: map<string, Schema>
    var tables: map<string, seq<Record>>
    var sequences: map<string, int>

    constructor (db: Db)
      ensures View() == db
    {
      schemas, tables, sequences := db.schemas, db.tables, db.sequences;
    }

    ghost function View(): Db
      reads this
    {
      Db(schemas, tables, sequences)
    }

    method InsertBatch(b: Batch)
      requires b.table in tables && b.table in schemas
      modifies this`tables
      ensures tables == old(tables)[b.table :=
        InsertAll(schemas[b.table], old(tables[b.table]), ProjectedAll(b.rows, b.columns))]
    {
      hide InsertAll, ProjectedAll, Bind, Numbered, TotalRows;
      var s := schemas[b.table];
      ghost var start := tables;
      NothingInserted(s, start[b.table], b.rows, b.columns);
      var i := 0;
      while i < |b.rows|
        invariant 0 <= i <= |b.rows| && b.table in tables
        invariant tables == start[b.table := InsertAll(s, start[b.table], ProjectedAll(b.rows[..i], b.columns))]
      {
        var k := if i + BATCH_SIZE < |b.rows| then i + BATCH_SIZE else |b.rows|;
        var chunk := b.rows[i..k];
        var values, placeholders := BuildInsert(chunk, b.columns);
        BoundRows(chunk, b.columns, values, placeholders);
        ProjectedSplit(b.rows, b.columns, i, k);
        InsertSplit(s, start[b.table], ProjectedAll(b.rows[..i], b.columns), ProjectedAll(chunk, b.columns));
        tables := tables[b.table := InsertAll(s, tables[b.table], Bind(b.columns, placeholders, values))];
        i := k;
      }
      assert b.rows[..i] == b.rows;
    }

    method AdvanceSequence(table: string)
      requires table in tables && table in schemas
      modifies this`sequences
      ensures sequences ==
        if schemas[table].serial then old(sequences)[table := NextId(tables[table])] else old(sequences)
    {
      if !schemas[table].serial {
        return;
      }
      sequences := sequences[table := NextId(tables[table])];
    }

    method ImportJsonl(bs: seq<Batch>, faultAt: Option<nat>) returns (ok: bool, imported: nat, rows: nat)
      modifies this
      ensures ok <==> ImportAll(old(View()), bs).Some? && (faultAt.None? || faultAt.value > |bs|)
      ensures ok ==> View() == ImportAll(old(View()), bs).value
      ensures ok ==> rows == TotalRows(bs) && imported == TablesTouched(bs)
      ensures schemas == old(schemas) && (!ok ==> tables == old(tables))
      ensures !ok ==> var n := LinesDone(old(View()), Attempt(bs, faultAt));
        ImportAll(old(View()), bs[..n]).Some? && sequences == ImportAll(old(View()), bs[..n]).value.sequences
      ensures View() == Leaves(old(View()), Attempt(bs, faultAt))
    {
      hide ImportAll, Importable, InsertAll, ProjectedAll;
      var savedTables := tables;
      imported, rows := 0, 0;
      ghost var start := View();
      ImportableIff(start, bs);
      Unimported(start, bs);
      for i := 0 to |bs|
        invariant schemas == start.schemas && savedTables == start.tables
        invariant faultAt.Some? ==> faultAt.value >= i
        invariant i <= Importable(start, bs) && ImportAll(start, bs[..i]) == Some(View())
        invariant rows + TotalRows(bs[i..]) == TotalRows(bs) && imported + TablesTouched(bs[i..]) == TablesTouched(bs)
      {
        var b := bs[i];
        assert bs[i..][1..] == bs[i + 1..];
        ImportStep(start, bs, i);
        if faultAt == Some(i) || (b.rows != [] && (b.table !in tables || b.table !in schemas)) {
          assert ImportOne(View(), b).None? ==> Importable(start, bs) == i;
          assert LinesDone(start, Attempt(bs, faultAt)) == i;
          tables := savedTables;
          return false, imported, rows;
        }
        if b.rows == [] {
          continue;
        }
        InsertBatch(b);
        AdvanceSequence(b.table);
        imported := imported + 1;
        rows := rows + |b.rows|;
      }
      assert bs[..|bs|] == bs && LinesDone(start, Attempt(bs, faultAt)) == |bs|;
      if faultAt == Some(|bs|) {
        tables := savedTables;
        return false, imported, rows;
      }
      return true, imported, rows;
    }

    method VerifyImport(bs: seq<Batch>) returns (result: Option<seq<Mismatch>>)
      ensures result == Mismatches(View(), bs)
    {
      var mismatches: seq<Mismatch> := [];
      assert bs[0..] == bs;
      ghost var all := Mismatches(View(), bs);
      assert all.Some? ==> [] + all.value == all.value;
      for i := 0 to |bs|
        invariant all.None? <==> Mismatches(View(), bs[i..]).None?
        invariant all.Some? ==> all.value == mismatches + Mismatches(View(), bs[i..]).value
      {
        assert bs[i..][1..] == bs[i + 1..];
        ghost var rest := Mismatches(View(), bs[i + 1..]);
        assert rest.Some? ==> [] + rest.value == rest.value;
        if bs[i].table !in tables {
          return None;
        }
        var actual := |tables[bs[i].table]|;
        if actual != |bs[i].rows| {
          ghost var one := [Mismatch(bs[i].table, |bs[i].rows|, actual)];
          assert rest.Some? ==> mismatches + (one + rest.value) == (mismatches + one) + rest.value;
          mismatches := mismatches + [Mismatch(bs[i].table, |bs[i].rows|, actual)];
        }
      }
      assert bs[|bs|..] == [] && mismatches + [] == mismatches;
      return Some(mismatches);
    }
  }
}
