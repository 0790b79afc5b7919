/** Whole-run theorems: where recommendations come from, and what a crash and a resume change. */
module PipelineRuns {
  import opened Wrappers
  import opened PipelineTypes
  import opened CheckpointStore
  import opened PipelineFlow

  // ---- Provenance ---------------------------------------------------------------------------

  lemma PassedIsFromInput(env: Env, f: Flow, s: Stage)
    requires Contract(env) && LiveFlow(env, f)
    ensures Domains(At(f, s).result.passed) <= Domains(InputOf(f, s))
  {
  }

  lemma PassedNests(env: Env, f: Flow)
    requires Contract(env) && LiveFlow(env, f)
    ensures
      Domains(Assemble(f).recommended) <= Domains(f.scoring.result.passed)
      <= Domains(Known(f.rdap.result.passed)) <= Domains(f.rdap.result.passed)
      <= Domains(f.dns.result.passed) <= Domains(f.gen.passed)
    ensures forall c :: c in Known(f.rdap.result.passed) ==> c in f.rdap.result.passed && c.rdapStatus != Unknown
  {
    hide Contract, LiveFlow, Domains, Known;
    PassedIsFromInput(env, f, Dns);
    PassedIsFromInput(env, f, Rdap);
    PassedIsFromInput(env, f, Scoring);
    PassedIsFromInput(env, f, Trademark);
    KnownIsContained(f.rdap.result.passed);
    KnownMembers(f.rdap.result.passed);
  }

  // Try k of the gate resolved with exactly the recommendations.
  ghost predicate GatePassed(env: Env, f: Flow, k: nat) {
    var o := env.attempt(Trademark, f.scoring.result.passed, k);
    1 <= k <= MAX_ATTEMPTS && o.Resolved? && o.result.passed == Assemble(f).recommended
  }

  /** The gate cannot be bypassed: a recommendation is never a recovery value. */
  lemma GateCannotBeBypassed(env: Env, f: Flow)
    requires LiveFlow(env, f) && Assemble(f).recommended != []
    ensures exists k: nat :: GatePassed(env, f, k)
  {
    assert At(f, Trademark) == Live(env, Trademark, InputOf(f, Trademark));
    var k := Decider(env, Trademark, f.scoring.result.passed, 1);
    assert GatePassed(env, f, k);
  }

  /** The three result lists nest. */
  lemma ListsNest(f: Flow)
    ensures multiset(Assemble(f).recommended) <= multiset(Assemble(f).scored) <= multiset(Assemble(f).all)
  {
  }

  /**
    Every recommended candidate was passed by generation, DNS, RDAP with a status other than
    Unknown, scoring and the trademark gate, in that order, whatever was retried or degraded; what is
    recommended is what a try of the gate resolved with; and the three result lists nest.
   */
  lemma RecommendationProvenance(env: Env, f: Flow)
    requires Contract(env) && LiveFlow(env, f)
    ensures
      Domains(Assemble(f).recommended) <= Domains(f.scoring.result.passed)
      <= Domains(Known(f.rdap.result.passed)) <= Domains(f.rdap.result.passed)
      <= Domains(f.dns.result.passed) <= Domains(f.gen.passed)
    ensures forall c :: c in Known(f.rdap.result.passed) ==> c in f.rdap.result.passed && c.rdapStatus != Unknown
    ensures Assemble(f).recommended != [] ==> exists k: nat :: GatePassed(env, f, k)
    ensures multiset(Assemble(f).recommended) <= multiset(Assemble(f).scored) <= multiset(Assemble(f).all)
  {
    hide *;
    PassedNests(env, f);
    ListsNest(f);
    if Assemble(f).recommended != [] {
      GateCannotBeBypassed(env, f);
    }
  }

  // ---- Where loss is silent ------------------------------------------------------------------

  const LONE: Candidate := Candidate("lone.com", Available, None, 0)

  function PassEverything(r: StageResult): Env {
    Env(Some(r), (s, input, k) => Resolved(StageResult(input, [], []), false), (s, input, k) => None, (s, k) => false,
        false, false, s => false, l => Some(0), s => false, true, true)
  }

  /** The run passed every abort check between the stages. */
  ghost predicate RunsOn(env: Env) {
    forall s: Stage :: s != Trademark ==> !env.abortedAfter(s)
  }

  /** Whatever generation yields, a run that is not flagged left nothing over. */
  ghost predicate FlagsAllLoss(env: Env) {
    forall gen: StageResult ::
      !Assemble(RunFlow(env, FRESH, gen)).degraded ==> AllLost(RunFlow(env, FRESH, gen)) == multiset{}
  }

  // Everything passes; the gate fails transiently before try k0 and stops with nothing when its signal is set.
  function GateCutAt(signalAt: (Stage, nat) -> bool, k0: nat): Env {
    PassEverything(StageResult([LONE], [], [])).(
      signalAt := signalAt,
      attempt := (s: Stage, input: seq<Candidate>, k: nat) =>
        if s == Trademark && k < k0 then Failed(true)
        else if s == Trademark && signalAt(s, k) then Resolved(EMPTY, false)
        else Resolved(StageResult(input, [], []), false))
  }

  lemma CutDecides(signalAt: (Stage, nat) -> bool, k0: nat, input: seq<Candidate>, k: nat)
    requires 1 <= k <= k0 <= MAX_ATTEMPTS && forall j | 1 <= j < k0 :: !signalAt(Trademark, j)
    ensures Decider(GateCutAt(signalAt, k0), Trademark, input, k) == k0
    decreases k0 - k
  {
    if k < k0 {
      CutDecides(signalAt, k0, input, k + 1);
    }
  }

  lemma CutFitsContract(signalAt: (Stage, nat) -> bool, k0: nat)
    requires forall s: Stage, k: nat | 1 <= k <= MAX_ATTEMPTS :: s != Trademark ==> !signalAt(s, k)
    ensures var env := GateCutAt(signalAt, k0); Contract(env) && SignalStays(env) && RunsOn(env)
  {
    var env := GateCutAt(signalAt, k0);
    forall s: Stage, input: seq<Candidate>, k: nat
      ensures Honours(input, env.attempt(s, input, k), env.signalAt(s, k))
    {
      CutHonours(signalAt, k0, s, input, k);
    }
    hide Honours;
  }

  lemma CutHonours(signalAt: (Stage, nat) -> bool, k0: nat, s: Stage, input: seq<Candidate>, k: nat)
    ensures var env := GateCutAt(signalAt, k0); Honours(input, env.attempt(s, input, k), env.signalAt(s, k))
  {
    assert Output(EMPTY) == multiset{} && Output(StageResult(input, [], [])) == Domains(input);
    hide Output, Domains;
  }

  lemma CutGate(signalAt: (Stage, nat) -> bool, k0: nat, input: seq<Candidate>)
    requires 1 <= k0 <= MAX_ATTEMPTS && signalAt(Trademark, k0) && forall j | 1 <= j < k0 :: !signalAt(Trademark, j)
    ensures Live(GateCutAt(signalAt, k0), Trademark, input) == Settled(EMPTY, [], [])
  {
    CutDecides(signalAt, k0, input, 1);
    hide Decider;
  }

  lemma CutBefore(signalAt: (Stage, nat) -> bool, k0: nat, s: Stage, input: seq<Candidate>)
    requires s != Trademark
    ensures Live(GateCutAt(signalAt, k0), s, input) == Settled(StageResult(input, [], []), [], [])
  {
  }

  /**
    The run checks its abort signal after every stage but the last: for every signal that is first
    set at some try of the trademark gate, some gate stops early and the run still returns,
    unflagged, without the candidate the gate had not reached.
   */
  lemma AbortInLastStageIsSilent(signalAt: (Stage, nat) -> bool, k0: nat)
    requires 1 <= k0 <= MAX_ATTEMPTS && signalAt(Trademark, k0) && forall j | 1 <= j < k0 :: !signalAt(Trademark, j)
    requires forall s: Stage, k: nat | 1 <= k <= MAX_ATTEMPTS :: s != Trademark ==> !signalAt(s, k)
    ensures var env := GateCutAt(signalAt, k0);
      Contract(env) && SignalStays(env) && RunsOn(env) && !FlagsAllLoss(env)
  {
    CutFitsContract(signalAt, k0);
    hide Contract, SignalStays, RunsOn, Live, GateCutAt, AllLost;
    var env := GateCutAt(signalAt, k0);
    var gen, passed := StageResult([LONE], [], []), Settled(StageResult([LONE], [], []), [], []);
    CutBefore(signalAt, k0, Dns, [LONE]);
    CutBefore(signalAt, k0, Rdap, [LONE]);
    assert Known([LONE]) == [LONE] by { assert Known([LONE][1..]) == []; }
    CutBefore(signalAt, k0, Scoring, [LONE]);
    CutGate(signalAt, k0, [LONE]);
    var f := RunFlow(env, FRESH, gen);
    assert f == Flow(gen, passed, passed, passed, Settled(EMPTY, [], []));
    LoneIsLost(f);
  }

  lemma LoneIsLost(f: Flow)
    requires f.scoring.result.passed == [LONE] && f.trademark.result == EMPTY
    ensures LONE.domain in AllLost(f)
  {
    assert Domains([LONE])[LONE.domain] == 1;
    assert LONE.domain in Lost(f, Trademark);
  }

  lemma UncutRunFlagsLoss(env: Env)
    requires Contract(env) && SignalStays(env) && RunsOn(env)
    requires forall k | 1 <= k <= MAX_ATTEMPTS :: !env.signalAt(Trademark, k)
    ensures FlagsAllLoss(env)
  {
    hide Contract, SignalStays, Assemble, Lost;
    forall gen: StageResult | !Assemble(RunFlow(env, FRESH, gen)).degraded
      ensures AllLost(RunFlow(env, FRESH, gen)) == multiset{}
    {
      var f := RunFlow(env, FRESH, gen);
      RunFlowIsLive(env, FRESH, gen);
      assert NotCut(env, f);
      hide RunFlow, NotCut, LiveFlow;
      LossIsNeverSilent(env, f);
      NothingLost(f);
    }
  }

  lemma NothingLost(f: Flow)
    requires forall s: Stage :: Output(At(f, s).result) == Domains(InputOf(f, s))
    ensures AllLost(f) == multiset{}
  {
    assert Output(At(f, Dns).result) == Domains(InputOf(f, Dns))
        && Output(At(f, Rdap).result) == Domains(InputOf(f, Rdap));
  }

  lemma SignalStopsRun(env: Env, s: Stage, k: nat)
    requires SignalStays(env) && s != Trademark && 1 <= k <= MAX_ATTEMPTS && env.signalAt(s, k)
    ensures !RunsOn(env)
  {
    assert env.abortedAfter(s);
  }

  /**
    For a fixed abort signal, loss is flagged in every run that goes on to the end, whatever the
    stages do within their contract, exactly when the signal is unset at all three tries of the
    gate (or is set at a try of an earlier stage, so that no run goes on).
   */
  lemma LossFlaggedIff(signalAt: (Stage, nat) -> bool)
    ensures
      (forall env: Env | env.signalAt == signalAt && Contract(env) && SignalStays(env) ::
         RunsOn(env) ==> FlagsAllLoss(env))
      <==>
      || (forall k | 1 <= k <= MAX_ATTEMPTS :: !signalAt(Trademark, k))
      || (exists s: Stage, k: nat :: s != Trademark && 1 <= k <= MAX_ATTEMPTS && signalAt(s, k))
  {
    hide Contract, FlagsAllLoss, RunsOn, SignalStays;
    var earlier := exists s: Stage, k: nat :: s != Trademark && 1 <= k <= MAX_ATTEMPTS && signalAt(s, k);
    if earlier || forall k | 1 <= k <= MAX_ATTEMPTS :: !signalAt(Trademark, k) {
      forall env: Env | env.signalAt == signalAt && Contract(env) && SignalStays(env)
        ensures RunsOn(env) ==> FlagsAllLoss(env)
      {
        if earlier {
          var s: Stage, k: nat :| s != Trademark && 1 <= k <= MAX_ATTEMPTS && signalAt(s, k);
          SignalStopsRun(env, s, k);
        } else if RunsOn(env) {
          UncutRunFlagsLoss(env);
        }
      }
    } else {
      var k0 := if signalAt(Trademark, 1) then 1 else if signalAt(Trademark, 2) then 2 else 3;
      AbortInLastStageIsSilent(signalAt, k0);
      assert GateCutAt(signalAt, k0).signalAt == signalAt;
    }
  }

  // ---- Crash and resume ----------------------------------------------------------------------

  /** A save that reached the store, at some time. */
  datatype Save = Save(stage: string, passed: seq<Candidate>, filtered: seq<Candidate>, at: nat)

  /**
    The saves a run can issue: generation's own result, and anything at all under the four
    stage labels (results of tries, recovery values, late answers of given-up stages).
   */
  ghost predicate Issuable(env: Env, sv: Save) {
    || (sv.stage == GENERATION_STAGE && env.generate.Some?
        && sv.passed == env.generate.value.passed && sv.filtered == env.generate.value.filtered)
    || exists s: Stage :: sv.stage == s.Label()
  }

  /** The store after the landed saves of any number of crashed attempts of one run. */
  function Landed(rows: seq<Row>, runId: string, saves: seq<Save>): seq<Row>
    decreases |saves|
  {
    if saves == [] then rows
    else
      var sv := saves[0];
      Landed(Upsert(rows, AsRow(runId, sv)), runId, saves[1..])
  }

  function AsRow(runId: string, sv: Save): Row {
    Row(runId, sv.stage, Encode(sv.passed), Encode(sv.filtered), FORMAT_VERSION, sv.at)
  }

  lemma {:induction false} LandedSnoc(rows: seq<Row>, runId: string, saves: seq<Save>, sv: Save)
    ensures Landed(rows, runId, saves + [sv]) == Upsert(Landed(rows, runId, saves), AsRow(runId, sv))
    decreases |saves|
  {
    if saves == [] {
      assert [] + [sv] == [sv] && [sv][1..] == [];
    } else {
      LandedSnoc(Upsert(rows, AsRow(runId, saves[0])), runId, saves[1..], sv);
      assert (saves + [sv])[1..] == saves[1..] + [sv];
    }
  }

  lemma {:induction false} LandedIsUnique(rows: seq<Row>, runId: string, saves: seq<Save>)
    requires Unique(rows)
    ensures Unique(Landed(rows, runId, saves))
    decreases |saves|
  {
    if saves != [] {
      UpsertKeepsUnique(rows, AsRow(runId, saves[0]));
      LandedIsUnique(Upsert(rows, AsRow(runId, saves[0])), runId, saves[1..]);
    }
  }

  lemma {:induction false} LandedEmptyIff(rows: seq<Row>, runId: string, saves: seq<Save>)
    ensures OfRun(Landed(rows, runId, saves), runId) == [] <==> saves == [] && OfRun(rows, runId) == []
    decreases |saves|
  {
    if saves != [] {
      OfRunUpsert(rows, AsRow(runId, saves[0]));
      LandedEmptyIff(Upsert(rows, AsRow(runId, saves[0])), runId, saves[1..]);
    }
  }

  ghost predicate FaithfulRow(env: Env, row: Row) {
    && row.version == FORMAT_VERSION && Readable(row)
    && ((row.stage == GENERATION_STAGE && env.generate.Some?
         && Restore(row) == Saved(env.generate.value.passed, env.generate.value.filtered))
        || exists s: Stage :: row.stage == s.Label())
  }

  ghost predicate Faithful(env: Env, rows: seq<Row>, runId: string) {
    Unique(rows) && forall r | r in rows && r.runId == runId :: FaithfulRow(env, r)
  }

  lemma {:induction false} LandedIsFaithful(env: Env, rows: seq<Row>, runId: string, saves: seq<Save>)
    requires Faithful(env, rows, runId) && forall sv | sv in saves :: Issuable(env, sv)
    ensures Faithful(env, Landed(rows, runId, saves), runId)
    decreases |saves|
  {
    if saves != [] {
      var sv := saves[0];
      var row := AsRow(runId, sv);
      assert sv in saves && Issuable(env, sv);
      ParseEncode(sv.passed);
      ParseEncode(sv.filtered);
      UpsertKeepsUnique(rows, row);
      UpsertRows(rows, row);
      LandedIsFaithful(env, Upsert(rows, row), runId, saves[1..]);
    }
  }

  /** Clearing leaves the rows faithful too, having none of the run. */
  lemma ClearedIsFaithful(env: Env, rows: seq<Row>, runId: string)
    requires Unique(rows)
    ensures Faithful(env, Without(rows, runId), runId)
  {
    WithoutKeepsUnique(rows, runId);
    WithoutRows(rows, runId);
  }

  /** What loading faithful rows yields: the last inserted row decides where the run resumes. */
  lemma LoadedFrom(env: Env, rows: seq<Row>, runId: string, now: nat) returns (last: Row)
    requires Faithful(env, rows, runId) && Load(rows, runId, now).Some?
    ensures OfRun(rows, runId) != [] && last == OfRun(rows, runId)[|OfRun(rows, runId)| - 1] && FaithfulRow(env, last)
    ensures Load(rows, runId, now).value.lastCompletedStage == last.stage
    ensures last.stage in Load(rows, runId, now).value.results
            && Load(rows, runId, now).value.results[last.stage] == Restore(last)
    ensures ResumeFrom(Load(rows, runId, now)).index == if last.stage == GENERATION_STAGE then 1 else 0
  {
    var mine := OfRun(rows, runId);
    OfRunRows(rows, runId);
    last := mine[|mine| - 1];
    LastResult(mine);
    assert last in mine && FaithfulRow(env, last);
    if last.stage != GENERATION_STAGE {
      var s: Stage :| last.stage == s.Label();
      ResumeIndexOfSavedLabels(s);
    } else {
      ResumeIndexOfSavedLabels(Dns);
    }
  }

  lemma FaithfulLoads(env: Env, rows: seq<Row>, runId: string, now: nat)
    requires Faithful(env, rows, runId)
    ensures !LoadThrows(rows, runId, now)
  {
    OfRunRows(rows, runId);
  }

  /** From faithful rows at most generation is replayed, and then with its own result. */
  lemma FaithfulResume(env: Env, rows: seq<Row>, runId: string, now: nat)
    requires Faithful(env, rows, runId)
    ensures
      var r := ResumeFrom(Load(rows, runId, now));
      && AllLive(r) && r.index <= 1
      && (Generation(env, r).Some? <==> env.generate.Some?)
      && (env.generate.Some? ==> Generation(env, r).value.passed == env.generate.value.passed
                                 && Generation(env, r).value.filtered == env.generate.value.filtered)
  {
    hide Load, GetResumeIndex, Faithful;
    if Load(rows, runId, now).Some? {
      var last := LoadedFrom(env, rows, runId, now);
      if last.stage == GENERATION_STAGE {
        GenerationRowsAreGenerations(env, last);
      }
    }
  }

  lemma GenerationRowsAreGenerations(env: Env, row: Row)
    requires FaithfulRow(env, row) && row.stage == GENERATION_STAGE
    ensures env.generate.Some? && Restore(row) == Saved(env.generate.value.passed, env.generate.value.filtered)
  {
  }

  // Generation enters the result only through its two lists.
  lemma SameGenerationSameResult(env: Env, r: Resume, a: StageResult, b: StageResult)
    requires AllLive(r) && a.passed == b.passed && a.filtered == b.filtered
    ensures Assemble(RunFlow(env, r, a)) == Assemble(RunFlow(env, FRESH, b))
  {
  }

  /**
    Resume is transparent: start from a store with no rows of the run, or with rows an earlier run of
    it left; crash it any number of times, at any points, with any of its un-awaited saves landed in
    any order; running the same id again loads, and produces the result of an uninterrupted run, or
    fails in generation exactly when that run would.
   */
  lemma ResumeIsTransparent(env: Env, rows: seq<Row>, runId: string, saves: seq<Save>, now: nat)
    requires Unique(rows) && ((forall r <- rows :: r.runId != runId) || Faithful(env, rows, runId))
    requires forall sv | sv in saves :: Issuable(env, sv)
    ensures
      var r := ResumeFrom(Load(Landed(rows, runId, saves), runId, now));
      && !LoadThrows(Landed(rows, runId, saves), runId, now)
      && (Generation(env, r).Some? <==> env.generate.Some?)
      && (env.generate.Some? ==>
            Assemble(RunFlow(env, r, Generation(env, r).value)) == Assemble(RunFlow(env, FRESH, env.generate.value)))
  {
    LandedIsFaithful(env, rows, runId, saves);
    FaithfulLoads(env, Landed(rows, runId, saves), runId, now);
    FaithfulResume(env, Landed(rows, runId, saves), runId, now);
    var r := ResumeFrom(Load(Landed(rows, runId, saves), runId, now));
    if env.generate.Some? {
      SameGenerationSameResult(env, r, Generation(env, r).value, env.generate.value);
    }
  }

  /** Generation is replayed exactly when the row inserted last is generation's; no later stage ever is. */
  lemma ReplayNeedsGenerationLast(env: Env, rows: seq<Row>, runId: string, now: nat)
    requires Faithful(env, rows, runId) && Load(rows, runId, now).Some?
    ensures ResumeFrom(Load(rows, runId, now)).index > 0
            <==> OfRun(rows, runId) != [] && OfRun(rows, runId)[|OfRun(rows, runId)| - 1].stage == GENERATION_STAGE
    ensures forall s: Stage :: !Replays(ResumeFrom(Load(rows, runId, now)), s)
  {
    var last := LoadedFrom(env, rows, runId, now);
    FaithfulResume(env, rows, runId, now);
  }

  /**
    A rerun whose last inserted row is generation's works with the result saved there, whatever its own
    generation would yield or even if it yields none; any other rerun generates anew.
   */
  lemma RerunGeneration(env: Env, other: Env, rows: seq<Row>, runId: string, now: nat)
    requires Faithful(env, rows, runId)
    ensures
      var mine, r := OfRun(rows, runId), ResumeFrom(Load(rows, runId, now));
      if Load(rows, runId, now).Some? && mine != [] && mine[|mine| - 1].stage == GENERATION_STAGE then
        env.generate.Some? &&
        Generation(other, r) == Some(StageResult(env.generate.value.passed, env.generate.value.filtered, []))
      else Generation(other, r) == other.generate
  {
    hide Load, GetResumeIndex, Faithful, OfRun;
    if Load(rows, runId, now).Some? {
      var last := LoadedFrom(env, rows, runId, now);
      if last.stage == GENERATION_STAGE {
        GenerationRowsAreGenerations(env, last);
      }
    }
  }

  lemma {:induction false} LandedLast(rows: seq<Row>, runId: string, saves: seq<Save>, sv: Save)
    requires Unique(rows) && (forall r <- rows :: r.runId != runId) && (forall e <- saves :: e.stage != sv.stage)
    ensures var mine := OfRun(Landed(rows, runId, saves + [sv]), runId);
      mine != [] && mine[|mine| - 1] == AsRow(runId, sv)
  {
    var landed := Landed(rows, runId, saves);
    LandedSnoc(rows, runId, saves, sv);
    LandedIsUnique(rows, runId, saves);
    OfRunUpsert(landed, AsRow(runId, sv));
    OfRunUnique(landed, runId);
    OfRunRows(landed, runId);
    LandedRows(rows, runId, saves);
    hide OfRun, Landed, Upsert;
    UpsertInRun(OfRun(landed, runId), AsRow(runId, sv));
    forall r | r in OfRun(landed, runId) ensures r.stage != sv.stage {
      assert r in landed && r.runId == runId;
    }
  }

  lemma {:induction false} LandedRows(rows: seq<Row>, runId: string, saves: seq<Save>)
    ensures forall r <- Landed(rows, runId, saves) :: r in rows || exists e <- saves :: r == AsRow(runId, e)
    decreases |saves|
  {
    if saves != [] {
      var up := Upsert(rows, AsRow(runId, saves[0]));
      UpsertRows(rows, AsRow(runId, saves[0]));
      LandedRows(up, runId, saves[1..]);
      forall r | r in Landed(rows, runId, saves) ensures r in rows || exists e <- saves :: r == AsRow(runId, e) {
        if r !in rows && r !in up {
          var e :| e in saves[1..] && r == AsRow(runId, e);
          assert e in saves;
        }
      }
    }
  }

  /**
    A run crashed once its generation was saved: if that save is the last to be inserted and not too old,
    the next run of the id goes on with the same candidates, even if generating anew would fail or differ.
   */
  lemma GenerationSurvivesCrash(env: Env, other: Env, rows: seq<Row>, runId: string, saves: seq<Save>,
                                at: nat, now: nat)
    requires Unique(rows) && (forall r <- rows :: r.runId != runId) && env.generate.Some?
    requires forall e <- saves :: Issuable(env, e) && e.stage != GENERATION_STAGE
    requires now - at <= MAX_AGE_MS
    ensures
      var gen := env.generate.value;
      var landed := Landed(rows, runId, saves + [Save(GENERATION_STAGE, gen.passed, gen.filtered, at)]);
      && !LoadThrows(landed, runId, now)
      && Generation(other, ResumeFrom(Load(landed, runId, now))) == Some(StageResult(gen.passed, gen.filtered, []))
  {
    var gen := env.generate.value;
    var sv := Save(GENERATION_STAGE, gen.passed, gen.filtered, at);
    var landed := Landed(rows, runId, saves + [sv]);
    LandedIsFaithful(env, rows, runId, saves + [sv]);
    LandedLast(rows, runId, saves, sv);
    OfRunRows(landed, runId);
    hide Landed, OfRun, ResumeFrom, Generation, LoadThrows;
    FaithfulLoads(env, landed, runId, now);
    assert Load(landed, runId, now).Some? by {
      assert forall r <- OfRun(landed, runId) :: FaithfulRow(env, r);
    }
    RerunGeneration(env, other, landed, runId, now);
  }

  // ---- Replay in general ---------------------------------------------------------------------

  /** Whatever stages are replayed, their saved lists are those of the uninterrupted run. */
  ghost predicate SavedFaithfully(r: Resume, f: Flow) {
    forall s: Stage | Replays(r, s) ::
      r.results[s.Label()] == Saved(At(f, s).result.passed, At(f, s).result.filtered)
  }

  ghost predicate SameLists(a: Settled, b: Settled) {
    a.result.passed == b.result.passed && a.result.filtered == b.result.filtered
  }

  lemma ReplayedStage(env: Env, r: Resume, f: Flow, s: Stage)
    requires LiveFlow(env, f) && SavedFaithfully(r, f)
    ensures SameLists(StageFlow(env, r, s, InputOf(f, s)), At(f, s))
    ensures StageFlow(env, r, s, InputOf(f, s)).degradations == (if Replays(r, s) then [] else At(f, s).degradations)
  {
  }

  /**
    For any resume index and any dictionary saved faithfully, replaying gives the lists of the
    uninterrupted run; the replayed stages' degradation entries are gone.
   */
  lemma FaithfulReplayKeepsLists(env: Env, r: Resume, gen: StageResult)
    requires SavedFaithfully(r, RunFlow(env, FRESH, gen))
    ensures
      var a, b := Assemble(RunFlow(env, r, gen)), Assemble(RunFlow(env, FRESH, gen));
      var f := RunFlow(env, FRESH, gen);
      && a.recommended == b.recommended && a.scored == b.scored && a.all == b.all
      && a.degradedReasons == (if Replays(r, Dns) then [] else f.dns.degradations)
                              + (if Replays(r, Rdap) then [] else f.rdap.degradations)
                              + (if Replays(r, Scoring) then [] else f.scoring.degradations)
                              + (if Replays(r, Trademark) then [] else f.trademark.degradations)
  {
    var f := RunFlow(env, FRESH, gen);
    RunFlowIsLive(env, FRESH, gen);
    ReplayedStage(env, r, f, Dns);
    ReplayedStage(env, r, f, Rdap);
    ReplayedStage(env, r, f, Scoring);
    ReplayedStage(env, r, f, Trademark);
  }

  /**
    The hypothesis is needed: the store also keeps recovery values, and replaying one would lose every
    candidate without a flag.  The labels in use never lead to such a resume index (FaithfulResume); a
    resume table that listed them would.
   */
  lemma DegradedCheckpointHidesLoss() returns (env: Env, r: Resume, gen: StageResult)
    ensures Contract(env) && Replays(r, Dns)
    ensures r.results[Dns.Label()] == Saved(EMPTY.passed, EMPTY.filtered)
    ensures Assemble(RunFlow(env, FRESH, gen)).recommended == [LONE] && !Assemble(RunFlow(env, FRESH, gen)).degraded
    ensures Assemble(RunFlow(env, r, gen)).all == [] && !Assemble(RunFlow(env, r, gen)).degraded
  {
    gen := StageResult([LONE], [], []);
    env := PassEverything(gen);
    r := Resume(2, map[Dns.Label() := Saved([], [])]);
    assert Known([LONE]) == [LONE] by { assert Known([LONE][1..]) == []; }
    var f := RunFlow(env, FRESH, gen);
    assert f.dns.result.passed == [LONE] && f.rdap.result.passed == [LONE] && f.scoring.result.passed == [LONE];
    var g := RunFlow(env, r, gen);
    assert g.dns.result.passed == [] && g.rdap.result.passed == [] && g.scoring.result.passed == [];
  }
}
