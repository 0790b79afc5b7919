/** The database checkpoint store: one row per (run, stage), kept in id order. */
module CheckpointStore {
  import opened Wrappers
  import opened PipelineTypes

  const FORMAT_VERSION := 1
  const MAX_AGE_MS := 86_400_000

  // The stage names the resume table knows, in order.
  const STAGES: seq<string> := [
    GENERATION_STAGE, "DnsPreFilterStage", "RdapConfirmationStage", "ScoringStage", "TrademarkGateStage"
  ]

  // A stored list: JSON text that may be corrupt or no list, whose items may lack required fields.
  datatype Item = Valid(candidate: Candidate) | Malformed
  datatype Payload = Json(items: seq<Item>) | NotAList | Corrupt

  datatype Row = Row(runId: string, stage: string, passed: Payload, filtered: Payload, version: nat, createdAt: nat)
  datatype Saved = Saved(passed: seq<Candidate>, filtered: seq<Candidate>)
  datatype CheckpointData = CheckpointData(lastCompletedStage: string, passed: seq<Candidate>,
                                           filtered: seq<Candidate>, results: map<string, Saved>)

  function Encode(cs: seq<Candidate>): Payload {
    Json(seq(|cs|, i requires 0 <= i < |cs| => Valid(cs[i])))
  }

  function ValidItems(items: seq<Item>): seq<Candidate> {
    if items == [] then []
    else (if items[0].Valid? then [items[0].candidate] else []) + ValidItems(items[1..])
  }

  function Parse(p: Payload): seq<Candidate> {
    match p
    case Json(items) => ValidItems(items)
    case _ => []
  }

  lemma {:induction false} ParseEncode(cs: seq<Candidate>)
    ensures Parse(Encode(cs)) == cs
  {
    if cs != [] {
      ParseEncode(cs[1..]);
      assert Encode(cs).items[1..] == Encode(cs[1..]).items;
    }
  }

  // `.filter` is called on whatever the text parses to, and throws unless that is a list.
  predicate Readable(row: Row) {
    !row.passed.NotAList? && !row.filtered.NotAList?
  }

  function Restore(row: Row): Saved {
    Saved(Parse(row.passed), Parse(row.filtered))
  }

  function OfRun(rows: seq<Row>, runId: string): seq<Row> {
    if rows == [] then []
    else (if rows[0].runId == runId then [rows[0]] else []) + OfRun(rows[1..], runId)
  }

  // UNIQUE(run_id, stage_name)
  ghost predicate Unique(rows: seq<Row>) {
    forall i, j | 0 <= i < j < |rows| :: rows[i].runId != rows[j].runId || rows[i].stage != rows[j].stage
  }

  /** INSERT .. ON CONFLICT(run_id, stage_name) DO UPDATE: a conflicting row keeps its id, so its place. */
  function Upsert(rows: seq<Row>, row: Row): seq<Row> {
    if rows == [] then [row]
    else if rows[0].runId == row.runId && rows[0].stage == row.stage then [row] + rows[1..]
    else [rows[0]] + Upsert(rows[1..], row)
  }

  function Without(rows: seq<Row>, runId: string): seq<Row> {
    if rows == [] then []
    else (if rows[0].runId == runId then [] else [rows[0]]) + Without(rows[1..], runId)
  }

  function Results(rows: seq<Row>): map<string, Saved> {
    if rows == [] then map[] else Results(rows[..|rows| - 1])[rows[|rows| - 1].stage := Restore(rows[|rows| - 1])]
  }

  function AllFiltered(rows: seq<Row>): seq<Candidate> {
    if rows == [] then [] else AllFiltered(rows[..|rows| - 1]) + Parse(rows[|rows| - 1].filtered)
  }

  /** What `load` resolves with, when it does. */
  function Load(rows: seq<Row>, runId: string, now: nat): Option<CheckpointData> {
    var mine := OfRun(rows, runId);
    if mine == [] then None
    else if exists r | r in mine :: r.version != FORMAT_VERSION then None
    else if now - mine[|mine| - 1].createdAt > MAX_AGE_MS then None
    else Some(Collected(mine))
  }

  /** It rejects when it gets as far as reading the rows and one of them cannot be read. */
  predicate LoadThrows(rows: seq<Row>, runId: string, now: nat) {
    Load(rows, runId, now).Some? && exists r <- OfRun(rows, runId) :: !Readable(r)
  }

  function Collected(mine: seq<Row>): CheckpointData
    requires mine != []
  {
    var last := mine[|mine| - 1];
    CheckpointData(last.stage, Parse(last.passed), AllFiltered(mine), Results(mine))
  }

  function GetResumeIndex(lastCompletedStage: string): nat {
    if lastCompletedStage == STAGES[0] then 1
    else if lastCompletedStage == STAGES[1] then 2
    else if lastCompletedStage == STAGES[2] then 3
    else if lastCompletedStage == STAGES[3] then 4
    else if lastCompletedStage == STAGES[4] then 5
    else 0
  }

  class DbCheckpointStore {
    var rows: seq<Row>

    ghost predicate Valid()
      reads this
    {
      Unique(rows)
    }

    constructor ()
      ensures Valid() && rows == []
    {
      rows := [];
    }

    method Save(runId: string, stage: string, passed: seq<Candidate>, filtered: seq<Candidate>, now: nat)
      requires Valid()
      modifies this
      ensures Valid()
      ensures rows == Upsert(old(rows), Row(runId, stage, Encode(passed), Encode(filtered), FORMAT_VERSION, now))
    {
      var row := Row(runId, stage, Encode(passed), Encode(filtered), FORMAT_VERSION, now);
      UpsertKeepsUnique(rows, row);
      rows := Upsert(rows, row);
    }

    method LoadRun(runId: string, now: nat) returns (ok: bool, cp: Option<CheckpointData>)
      requires Valid()
      ensures ok <==> !LoadThrows(rows, runId, now)
      ensures ok ==> cp == Load(rows, runId, now)
    {
      var mine := OfRun(rows, runId);
      if mine == [] {
        return true, None;
      }
      if exists r | r in mine :: r.version != FORMAT_VERSION {
        return true, None;
      }
      if now - mine[|mine| - 1].createdAt > MAX_AGE_MS {
        return true, None;
      }
      cp := Collect(mine);
      return cp.Some?, cp;
    }

    // The dictionary, the last stage name and the cumulative list, filled row by row.
    static method Collect(mine: seq<Row>) returns (data: Option<CheckpointData>)
      requires mine != []
      ensures data == if exists r <- mine :: !Readable(r) then None else Some(Collected(mine))
    {
      hide Readable, Results, AllFiltered, Restore, Parse;
      var results: map<string, Saved> := map[];
      var last := "";
      var cumulative := [];
      NothingCollected(mine);
      for i := 0 to |mine|
        invariant forall k | 0 <= k < i :: Readable(mine[k])
        invariant results == Results(mine[..i]) && cumulative == AllFiltered(mine[..i])
        invariant i > 0 ==> last == mine[i - 1].stage
      {
        if !Readable(mine[i]) {
          return None;
        }
        CollectedNext(mine, i);
        results := results[mine[i].stage := Restore(mine[i])];
        cumulative := cumulative + Parse(mine[i].filtered);
        last := mine[i].stage;
      }
      assert mine[..|mine|] == mine;
      LastResult(mine);
      return Some(CheckpointData(last, results[last].passed, cumulative, results));
    }

    method Clear(runId: string)
      requires Valid()
      modifies this
      ensures Valid() && rows == Without(old(rows), runId) && OfRun(rows, runId) == []
    {
      WithoutKeepsUnique(rows, runId);
      rows := Without(rows, runId);
    }
  }

  lemma LastResult(rows: seq<Row>)
    requires rows != []
    ensures var last := rows[|rows| - 1]; last.stage in Results(rows) && Results(rows)[last.stage] == Restore(last)
    ensures Restore(rows[|rows| - 1]).passed == Parse(rows[|rows| - 1].passed)
  {
  }

  lemma NothingCollected(rows: seq<Row>)
    ensures Results(rows[..0]) == map[] && AllFiltered(rows[..0]) == []
  {
  }

  lemma CollectedNext(rows: seq<Row>, i: nat)
    requires i < |rows|
    ensures Results(rows[..i + 1]) == Results(rows[..i])[rows[i].stage := Restore(rows[i])]
    ensures AllFiltered(rows[..i + 1]) == AllFiltered(rows[..i]) + Parse(rows[i].filtered)
  {
    assert rows[..i + 1][..i] == rows[..i];
  }

  // ---- What the operations keep ---------------------------------------------------------------

  lemma {:induction false} UpsertRows(rows: seq<Row>, row: Row)
    ensures forall r :: r in Upsert(rows, row) ==> r in rows || r == row
    ensures row in Upsert(rows, row)
  {
    if rows != [] && !(rows[0].runId == row.runId && rows[0].stage == row.stage) {
      UpsertRows(rows[1..], row);
    }
  }

  lemma {:induction false} UpsertKeepsUnique(rows: seq<Row>, row: Row)
    requires Unique(rows)
    ensures Unique(Upsert(rows, row))
  {
    if rows != [] && !(rows[0].runId == row.runId && rows[0].stage == row.stage) {
      UpsertKeepsUnique(rows[1..], row);
      UpsertRows(rows[1..], row);
      var up := Upsert(rows, row);
      forall i, j | 0 <= i < j < |up|
        ensures up[i].runId != up[j].runId || up[i].stage != up[j].stage
      {
        assert up[j] in Upsert(rows[1..], row);
      }
    }
  }

  lemma {:induction false} WithoutRows(rows: seq<Row>, runId: string)
    ensures forall r :: r in Without(rows, runId) <==> r in rows && r.runId != runId
  {
    if rows != [] {
      WithoutRows(rows[1..], runId);
      assert rows == [rows[0]] + rows[1..];
    }
  }

  lemma {:induction false} WithoutKeepsUnique(rows: seq<Row>, runId: string)
    requires Unique(rows)
    ensures Unique(Without(rows, runId)) && OfRun(Without(rows, runId), runId) == []
  {
    if rows != [] {
      WithoutKeepsUnique(rows[1..], runId);
      WithoutRows(rows[1..], runId);
      var kept := Without(rows, runId);
      if rows[0].runId != runId {
        assert kept[0] == rows[0] && kept[1..] == Without(rows[1..], runId);
        assert OfRun(kept, runId) == OfRun(kept[1..], runId);
        forall i, j | 0 <= i < j < |kept|
          ensures kept[i].runId != kept[j].runId || kept[i].stage != kept[j].stage
        {
          assert kept[j] in Without(rows[1..], runId);
        }
      } else {
        assert kept == Without(rows[1..], runId);
      }
    }
  }

  lemma {:induction false} OfRunRows(rows: seq<Row>, runId: string)
    ensures forall r :: r in OfRun(rows, runId) <==> r in rows && r.runId == runId
  {
    if rows != [] {
      OfRunRows(rows[1..], runId);
      assert rows == [rows[0]] + rows[1..];
    }
  }

  lemma {:induction false} OfRunUnique(rows: seq<Row>, runId: string)
    requires Unique(rows)
    ensures Unique(OfRun(rows, runId))
  {
    if rows != [] {
      OfRunUnique(rows[1..], runId);
      OfRunRows(rows[1..], runId);
      var mine := OfRun(rows, runId);
      if rows[0].runId == runId {
        forall i, j | 0 <= i < j < |mine|
          ensures mine[i].runId != mine[j].runId || mine[i].stage != mine[j].stage
        {
          assert mine[j] in OfRun(rows[1..], runId);
        }
      }
    }
  }

  /** With one row per stage, the loaded dictionary gives back each row's lists. */
  lemma {:induction false} ResultsOf(rows: seq<Row>, runId: string)
    requires Unique(rows) && forall r :: r in rows ==> r.runId == runId
    ensures forall r :: r in rows ==> r.stage in Results(rows) && Results(rows)[r.stage] == Restore(r)
    ensures forall s :: s in Results(rows) ==> exists r :: r in rows && r.stage == s
  {
    if rows != [] {
      var n := |rows| - 1;
      ResultsOf(rows[..n], runId);
      assert rows == rows[..n] + [rows[n]];
      assert rows[n] in rows;
    }
  }

  lemma {:induction false} OfRunUpsert(rows: seq<Row>, row: Row)
    ensures OfRun(Upsert(rows, row), row.runId) == Upsert(OfRun(rows, row.runId), row)
  {
    if rows != [] {
      var head, rest := rows[0], OfRun(rows[1..], row.runId);
      OfRunUpsert(rows[1..], row);
      if head.runId != row.runId {
        assert ([head] + Upsert(rows[1..], row))[1..] == Upsert(rows[1..], row);
        assert [] + rest == rest && [] + Upsert(rest, row) == Upsert(rest, row);
      } else if head.stage == row.stage {
        assert ([row] + rows[1..])[1..] == rows[1..] && ([head] + rest)[1..] == rest;
      } else {
        assert ([head] + Upsert(rows[1..], row))[1..] == Upsert(rows[1..], row) && ([head] + rest)[1..] == rest;
      }
    }
  }

  // A save within one run's rows: in place, or at the end.
  lemma {:induction false} UpsertAt(mine: seq<Row>, row: Row, k: nat)
    requires k <= |mine| && forall r <- mine :: r.runId == row.runId
    requires forall i | 0 <= i < k :: mine[i].stage != row.stage
    requires k < |mine| ==> mine[k].stage == row.stage
    ensures Upsert(mine, row) == if k < |mine| then mine[k := row] else mine + [row]
    decreases k
  {
    if mine != [] {
      assert mine[0] in mine;
    }
    if k > 0 {
      UpsertAt(mine[1..], row, k - 1);
      assert mine == [mine[0]] + mine[1..];
    }
  }

  lemma UpsertInRun(mine: seq<Row>, row: Row)
    requires Unique(mine) && forall r <- mine :: r.runId == row.runId
    ensures var v := Upsert(mine, row); v != [] && v[|v| - 1] == LastAfter(mine, row)
    ensures forall r :: r in Upsert(mine, row) <==> r == row || (r in mine && r.stage != row.stage)
  {
    if k :| 0 <= k < |mine| && mine[k].stage == row.stage {
      forall i | 0 <= i < |mine| && i != k ensures mine[i].stage != row.stage {
        assert mine[i] in mine && mine[k] in mine;
        assert Unique(mine);
        assert if i < k then mine[i].stage != mine[k].stage else mine[k].stage != mine[i].stage;
      }
      UpsertAt(mine, row, k);
      hide Upsert;
      var v := mine[k := row];
      assert v[k] == row;
      forall r | r in mine && r.stage != row.stage ensures r in v {
        var i :| 0 <= i < |mine| && mine[i] == r;
        assert v[i] == r;
      }
    } else {
      UpsertAt(mine, row, |mine|);
      hide Upsert;
    }
  }

  /** The row inserted last once `row` is saved: an earlier save of the same stage keeps its place. */
  function LastAfter(mine: seq<Row>, row: Row): Row {
    if mine != [] && mine[|mine| - 1].stage != row.stage && exists r <- mine :: r.stage == row.stage
    then mine[|mine| - 1] else row
  }

  lemma LoadedAfter(rows: seq<Row>, runId: string, now: nat, mine: seq<Row>, row: Row)
    requires row.version == FORMAT_VERSION && Readable(row)
    requires var v := OfRun(rows, runId);
      && v != [] && v[|v| - 1] == LastAfter(mine, row)
      && forall r :: r in v <==> r == row || (r in mine && r.stage != row.stage)
    ensures var cp := Load(rows, runId, now);
      && (cp.Some? <==> (forall r <- mine :: r.stage != row.stage ==> r.version == FORMAT_VERSION)
                        && now - LastAfter(mine, row).createdAt <= MAX_AGE_MS)
      && (LoadThrows(rows, runId, now) <==> cp.Some? && exists r <- mine :: r.stage != row.stage && !Readable(r))
      && (cp.Some? ==> cp.value == Collected(OfRun(rows, runId)))
  {
    hide OfRun, LastAfter, Collected, Readable;
  }

  // The rows of a run once `row` is saved, and what is loaded from them.
  lemma RowsAfterSave(rows: seq<Row>, row: Row)
    requires Unique(rows)
    ensures var v := OfRun(Upsert(rows, row), row.runId); var mine := OfRun(rows, row.runId);
      && Unique(v) && (forall r <- v :: r.runId == row.runId)
      && v != [] && v[|v| - 1] == LastAfter(mine, row)
      && forall r :: r in v <==> r == row || (r in mine && r.stage != row.stage)
  {
    OfRunUpsert(rows, row);
    OfRunRows(rows, row.runId);
    OfRunUnique(rows, row.runId);
    hide LastAfter, Upsert, OfRun;
    UpsertInRun(OfRun(rows, row.runId), row);
    UpsertKeepsUnique(OfRun(rows, row.runId), row);
  }

  /**
    A save makes the run loadable exactly when its other rows are of the current format and the row
    inserted last is not too old; then loading rejects exactly when another row is unreadable, and
    otherwise the stage saved is loaded back exactly, whatever was saved before and by whomever, and
    the run resumes at the last inserted stage, not the last written one.
   */
  lemma SavedIsLoaded(rows: seq<Row>, runId: string, stage: string, passed: seq<Candidate>, filtered: seq<Candidate>,
                      at: nat, now: nat)
    requires Unique(rows)
    ensures
      var row := Row(runId, stage, Encode(passed), Encode(filtered), FORMAT_VERSION, at);
      var mine, cp := OfRun(rows, runId), Load(Upsert(rows, row), runId, now);
      && (cp.Some? <==> (forall r <- mine :: r.stage != stage ==> r.version == FORMAT_VERSION)
                        && now - LastAfter(mine, row).createdAt <= MAX_AGE_MS)
      && (LoadThrows(Upsert(rows, row), runId, now) <==>
            cp.Some? && exists r <- mine :: r.stage != stage && (r.passed.NotAList? || r.filtered.NotAList?))
      && (cp.Some? ==> && stage in cp.value.results && cp.value.results[stage] == Saved(passed, filtered)
                       && cp.value.lastCompletedStage == LastAfter(mine, row).stage)
  {
    var row := Row(runId, stage, Encode(passed), Encode(filtered), FORMAT_VERSION, at);
    var rows' := Upsert(rows, row);
    ParseEncode(passed);
    ParseEncode(filtered);
    hide Load, LoadThrows, LastAfter, Upsert, OfRun, Results, AllFiltered, Parse, Unique;
    RowsAfterSave(rows, row);
    LoadedAfter(rows', runId, now, OfRun(rows, runId), row);
    ResultsOf(OfRun(rows', runId), runId);
  }

  /** The lists loaded: what the last row passed, and what all rows together filtered. */
  lemma {:induction false} CollectedLists(mine: seq<Row>)
    requires mine != []
    ensures Collected(mine).passed == Restore(mine[|mine| - 1]).passed
    ensures forall c :: c in Collected(mine).filtered <==> exists r <- mine :: c in Restore(r).filtered
    ensures Collected(mine).results.Keys == set r <- mine :: r.stage
  {
    FilteredMembers(mine);
    StagesCollected(mine);
  }

  lemma {:induction false} StagesCollected(rows: seq<Row>)
    ensures Results(rows).Keys == set r <- rows :: r.stage
    decreases |rows|
  {
    if rows != [] {
      var n := |rows| - 1;
      StagesCollected(rows[..n]);
      assert rows == rows[..n] + [rows[n]];
    }
  }

  lemma {:induction false} FilteredMembers(rows: seq<Row>)
    ensures forall c :: c in AllFiltered(rows) <==> exists r <- rows :: c in Restore(r).filtered
    decreases |rows|
  {
    if rows != [] {
      var n := |rows| - 1;
      FilteredMembers(rows[..n]);
      assert rows[n] in rows && forall r <- rows :: r in rows[..n] || r == rows[n];
      hide Parse;
      forall c ensures c in AllFiltered(rows) <==> exists r <- rows :: c in Restore(r).filtered {
        assert c in AllFiltered(rows) <==> c in AllFiltered(rows[..n]) || c in Restore(rows[n]).filtered;
      }
    }
  }

  /** Another run's save changes nothing this run loads. */
  lemma {:induction false} RunsAreSeparate(rows: seq<Row>, row: Row, runId: string)
    requires row.runId != runId
    ensures OfRun(Upsert(rows, row), runId) == OfRun(rows, runId)
  {
    if rows != [] && !(rows[0].runId == row.runId && rows[0].stage == row.stage) {
      RunsAreSeparate(rows[1..], row, runId);
    }
  }

  /** A label the orchestrator saves under resumes past generation only; every other label, nowhere. */
  lemma ResumeIndexOfSavedLabels(s: Stage)
    ensures GetResumeIndex(s.Label()) == 0 && GetResumeIndex(GENERATION_STAGE) == 1
    ensures forall name :: GetResumeIndex(name) == 0 <==> name !in STAGES
  {
    assert STAGES[0] in STAGES && STAGES[1] in STAGES && STAGES[2] in STAGES && STAGES[3] in STAGES;
    assert STAGES[4] in STAGES;
  }
}
