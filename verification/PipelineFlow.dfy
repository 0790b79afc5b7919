/**
  What a pipeline run computes, apart from locks and saving: how each stage settles after
  retries and budget, how a checkpoint replaces live stages, and which candidates end in
  which list.  The theorems cover every behaviour of the stages that meets their contract.
 */
module PipelineFlow {
  import opened Wrappers
  import opened PipelineTypes
  import opened CheckpointStore

  const MAX_ATTEMPTS := 3

  /**
    The environment of a run.  `attempt` gives the outcome of the k-th try of a stage on an
    input, `stray` the result its stage function still resolves with after the try was given up,
    `signalAt` whether the run's abort signal is set when the try settles, `loads` and `clears`
    whether the checkpoint store answers those calls; the other fields say where the run is cut short.
   */
  datatype Env = Env(
    generate: Option<StageResult>,
    attempt: (Stage, seq<Candidate>, nat) -> Outcome,
    stray: (Stage, seq<Candidate>, nat) -> Option<StageResult>,
    signalAt: (Stage, nat) -> bool,
    abortedAtStart: bool,
    abortedAfterGeneration: bool,
    abortedAfter: Stage -> bool,
    grant: string -> Option<nat>,
    recoveryThrows: Stage -> bool,
    loads: bool,
    clears: bool
  )

  datatype Settled = Settled(result: StageResult, degradations: seq<Degradation>, errors: seq<StageError>)

  const EMPTY: StageResult := StageResult([], [], [])

  function Processed(r: StageResult): nat {
    |r.passed| + |r.filtered|
  }

  // ---- Retries -----------------------------------------------------------------------------

  /** The try after which no further one is made. */
  predicate Decisive(env: Env, s: Stage, input: seq<Candidate>, k: nat) {
    var o := env.attempt(s, input, k);
    !o.Failed? || !o.isTransient || k >= MAX_ATTEMPTS || env.signalAt(s, k)
  }

  function Decider(env: Env, s: Stage, input: seq<Candidate>, k: nat): (d: nat)
    requires 1 <= k <= MAX_ATTEMPTS
    ensures k <= d <= MAX_ATTEMPTS && Decisive(env, s, input, d)
    ensures forall j | k <= j < d :: !Decisive(env, s, input, j)
    decreases MAX_ATTEMPTS - k
  {
    if Decisive(env, s, input, k) then k else Decider(env, s, input, k + 1)
  }

  lemma DeciderAt(env: Env, s: Stage, input: seq<Candidate>, k: nat)
    requires 1 <= k <= MAX_ATTEMPTS
    ensures Decisive(env, s, input, k) ==> Decider(env, s, input, k) == k
    ensures !Decisive(env, s, input, k) ==>
      k < MAX_ATTEMPTS && Decider(env, s, input, k) == Decider(env, s, input, k + 1)
  {
  }

  function SettledBy(s: Stage, inputCount: nat, o: Outcome): Settled {
    match o
    case Resolved(r, timedOut) =>
      Settled(r,
              (if timedOut then [Degradation(s.Label(), Timeout, Processed(r), inputCount)] else []) + r.reported,
              [])
    case Exceeded => Settled(EMPTY, [Degradation(s.Label(), Timeout, 0, inputCount)], [])
    case Failed(isTransient) =>
      Settled(EMPTY, [Degradation(s.Label(), Failure, 0, inputCount)], [StageError(s.Label(), isTransient)])
  }

  lemma SettledLists(s: Stage, inputCount: nat, o: Outcome)
    ensures SettledBy(s, inputCount, o).result == if o.Resolved? then o.result else EMPTY
    ensures !o.Failed? ==> SettledBy(s, inputCount, o).errors == []
  {
  }

  function LastOutcome(env: Env, s: Stage, input: seq<Candidate>): Outcome {
    env.attempt(s, input, Decider(env, s, input, 1))
  }

  function Live(env: Env, s: Stage, input: seq<Candidate>): Settled {
    SettledBy(s, |input|, LastOutcome(env, s, input))
  }

  // ---- Replay and assembly -----------------------------------------------------------------

  /** What a run starts from: a resume index (-1 for none) and the saved stage results. */
  datatype Resume = Resume(index: int, results: map<string, Saved>)

  const FRESH: Resume := Resume(-1, map[])

  function ResumeFrom(cp: Option<CheckpointData>): Resume {
    if cp.None? then FRESH else Resume(GetResumeIndex(cp.value.lastCompletedStage), cp.value.results)
  }

  predicate Replays(r: Resume, s: Stage) {
    r.index > s.Index() && s.Label() in r.results
  }

  function AsResult(saved: Saved): StageResult {
    StageResult(saved.passed, saved.filtered, [])
  }

  function StageFlow(env: Env, r: Resume, s: Stage, input: seq<Candidate>): Settled {
    if Replays(r, s) then Settled(AsResult(r.results[s.Label()]), [], []) else Live(env, s, input)
  }

  function Generation(env: Env, r: Resume): Option<StageResult> {
    if r.index > 0 && GENERATION_STAGE in r.results then Some(AsResult(r.results[GENERATION_STAGE])) else env.generate
  }

  // RDAP's passed candidates whose status is not Unknown.
  function Known(cs: seq<Candidate>): seq<Candidate> {
    if cs == [] then []
    else (if cs[0].rdapStatus != Unknown then [cs[0]] else []) + Known(cs[1..])
  }

  datatype Flow = Flow(gen: StageResult, dns: Settled, rdap: Settled, scoring: Settled, trademark: Settled)

  function RunFlow(env: Env, r: Resume, gen: StageResult): Flow {
    var dns := StageFlow(env, r, Dns, gen.passed);
    var rdap := StageFlow(env, r, Rdap, dns.result.passed);
    var scoring := StageFlow(env, r, Scoring, Known(rdap.result.passed));
    Flow(gen, dns, rdap, scoring, StageFlow(env, r, Trademark, scoring.result.passed))
  }

  function At(f: Flow, s: Stage): Settled {
    match s
    case Dns => f.dns
    case Rdap => f.rdap
    case Scoring => f.scoring
    case Trademark => f.trademark
  }

  function InputOf(f: Flow, s: Stage): seq<Candidate> {
    match s
    case Dns => f.gen.passed
    case Rdap => f.dns.result.passed
    case Scoring => Known(f.rdap.result.passed)
    case Trademark => f.scoring.result.passed
  }

  datatype RunResult = RunResult(recommended: seq<Candidate>, scored: seq<Candidate>, all: seq<Candidate>,
                                 errors: seq<StageError>, degraded: bool, degradedReasons: seq<Degradation>)

  function Assemble(f: Flow): RunResult {
    var errors := f.dns.errors + f.rdap.errors + f.scoring.errors + f.trademark.errors;
    var reasons := f.dns.degradations + f.rdap.degradations + f.scoring.degradations + f.trademark.degradations;
    var s, t := f.scoring.result, f.trademark.result;
    RunResult(
      t.passed,
      s.filtered + t.passed + t.filtered,
      f.gen.filtered + f.dns.result.filtered + f.rdap.result.filtered + s.filtered + t.filtered + t.passed,
      errors, errors != [] || reasons != [], reasons)
  }

  // ---- The stages' contract -----------------------------------------------------------------

  /**
    A stage that resolves sorts its input, or part of it, into passed and filtered; all of it
    unless its signal was aborted, by the budget or by the run.  What it reports about itself
    never claims more than was expected.
   */
  ghost predicate Contract(env: Env) {
    forall s: Stage, input: seq<Candidate>, k: nat :: Honours(input, env.attempt(s, input, k), env.signalAt(s, k))
  }

  // One try's part of it; `cut` is whether the run's signal was set when the try settled.
  ghost predicate Honours(input: seq<Candidate>, o: Outcome, cut: bool) {
    o.Resolved? ==>
      && Output(o.result) <= Domains(input)
      && (!o.timedOut && !cut ==> Output(o.result) == Domains(input))
      && (forall d | d in o.result.reported :: d.processed <= d.expected)
  }

  // Once set, the signal is still set at the check after the stage. There is no check after the last.
  ghost predicate SignalStays(env: Env) {
    forall s: Stage, k: nat | 1 <= k <= MAX_ATTEMPTS :: env.signalAt(s, k) && s != Trademark ==> env.abortedAfter(s)
  }

  ghost function Output(r: StageResult): multiset<string> {
    Domains(r.passed) + Domains(r.filtered)
  }

  /** Input a stage neither passed nor filtered. */
  ghost function Lost(f: Flow, s: Stage): multiset<string> {
    Domains(InputOf(f, s)) - Output(At(f, s).result)
  }

  ghost function Unlisted(f: Flow): multiset<string> {
    Domains(f.rdap.result.passed) - Domains(Known(f.rdap.result.passed))
  }

  lemma {:induction false} KnownMembers(cs: seq<Candidate>)
    ensures forall c :: c in Known(cs) <==> c in cs && c.rdapStatus != Unknown
    ensures (forall c :: c in cs ==> c.rdapStatus != Unknown) ==> Known(cs) == cs
  {
    if cs != [] {
      KnownMembers(cs[1..]);
      assert cs == [cs[0]] + cs[1..];
    }
  }

  lemma {:induction false} KnownIsContained(cs: seq<Candidate>)
    ensures Domains(Known(cs)) <= Domains(cs)
  {
    if cs != [] {
      KnownIsContained(cs[1..]);
      var head := if cs[0].rdapStatus != Unknown then [cs[0]] else [];
      DomainsConcat(head, Known(cs[1..]));
      assert Domains(head) <= multiset{cs[0].domain};
    }
  }

  lemma MultisetSize(a: multiset<string>, b: multiset<string>)
    requires a <= b
    ensures |a| <= |b| && |b - a| == |b| - |a|
  {
  }

  /** A live stage's output never exceeds its input, and equals it unless a signal cut it short. */
  lemma LiveOutput(env: Env, s: Stage, input: seq<Candidate>)
    requires Contract(env)
    ensures Output(Live(env, s, input).result) <= Domains(input)
    ensures Live(env, s, input).degradations == [] && !env.signalAt(s, Decider(env, s, input, 1))
            ==> Output(Live(env, s, input).result) == Domains(input)
  {
  }

  /** Every stage after generation was executed on what the stage before it passed. */
  ghost predicate LiveFlow(env: Env, f: Flow) {
    forall s: Stage :: At(f, s) == Live(env, s, InputOf(f, s))
  }

  /** No stage after generation is replayed: so for every index a stored label yields. */
  ghost predicate AllLive(r: Resume) {
    forall s: Stage :: !Replays(r, s)
  }

  lemma RunFlowIsLive(env: Env, r: Resume, gen: StageResult)
    requires AllLive(r)
    ensures LiveFlow(env, RunFlow(env, r, gen)) && RunFlow(env, r, gen).gen == gen
  {
  }

  // ---- Accounting ---------------------------------------------------------------------------

  lemma AllDomains(f: Flow)
    ensures
      Domains(Assemble(f).all)
      == Domains(f.gen.filtered) + Domains(f.dns.result.filtered) + Domains(f.rdap.result.filtered)
         + Domains(f.scoring.result.filtered)
         + Domains(f.trademark.result.filtered) + Domains(f.trademark.result.passed)
  {
    var a := f.gen.filtered;
    var b := a + f.dns.result.filtered;
    var c := b + f.rdap.result.filtered;
    var d := c + f.scoring.result.filtered;
    var e := d + f.trademark.result.filtered;
    DomainsConcat(a, f.dns.result.filtered);
    DomainsConcat(b, f.rdap.result.filtered);
    DomainsConcat(c, f.scoring.result.filtered);
    DomainsConcat(d, f.trademark.result.filtered);
    DomainsConcat(e, f.trademark.result.passed);
  }

  lemma Balance(env: Env, f: Flow, s: Stage)
    requires Contract(env) && LiveFlow(env, f)
    ensures Domains(InputOf(f, s)) == Output(At(f, s).result) + Lost(f, s)
  {
  }

  ghost function AllLost(f: Flow): multiset<string> {
    Lost(f, Dns) + Lost(f, Rdap) + Lost(f, Scoring) + Lost(f, Trademark)
  }

  // The five equations below add up, element by element.
  lemma BalanceSheet(gp: multiset<string>, gf: multiset<string>, dp: multiset<string>, df: multiset<string>,
                     rp: multiset<string>, rf: multiset<string>, known: multiset<string>, unknown: multiset<string>,
                     sp: multiset<string>, sf: multiset<string>, tp: multiset<string>, tf: multiset<string>,
                     l1: multiset<string>, l2: multiset<string>, l3: multiset<string>, l4: multiset<string>)
    requires gp == dp + df + l1 && dp == rp + rf + l2 && rp == known + unknown
    requires known == sp + sf + l3 && sp == tp + tf + l4
    ensures gp + gf == gf + df + rf + sf + tf + tp + unknown + (l1 + l2 + l3 + l4)
  {
  }

  /** Every generated candidate is listed, dropped as Unknown, or left over by a stage: an exact balance. */
  lemma CandidateAccounting(env: Env, f: Flow)
    requires Contract(env) && LiveFlow(env, f)
    ensures Output(f.gen) == Domains(Assemble(f).all) + Unlisted(f) + AllLost(f)
  {
    hide Domains, Lost, Assemble;
    assert Domains(f.gen.passed) == Output(f.dns.result) + Lost(f, Dns) by { Balance(env, f, Dns); }
    assert Domains(f.dns.result.passed) == Output(f.rdap.result) + Lost(f, Rdap) by { Balance(env, f, Rdap); }
    assert Domains(Known(f.rdap.result.passed)) == Output(f.scoring.result) + Lost(f, Scoring) by {
      Balance(env, f, Scoring);
    }
    assert Domains(f.scoring.result.passed) == Output(f.trademark.result) + Lost(f, Trademark) by {
      Balance(env, f, Trademark);
    }
    assert Domains(f.rdap.result.passed) == Domains(Known(f.rdap.result.passed)) + Unlisted(f) by {
      KnownIsContained(f.rdap.result.passed);
    }
    AllDomains(f);
    BalanceSheet(Domains(f.gen.passed), Domains(f.gen.filtered),
                 Domains(f.dns.result.passed), Domains(f.dns.result.filtered),
                 Domains(f.rdap.result.passed), Domains(f.rdap.result.filtered),
                 Domains(Known(f.rdap.result.passed)), Unlisted(f),
                 Domains(f.scoring.result.passed), Domains(f.scoring.result.filtered),
                 Domains(f.trademark.result.passed), Domains(f.trademark.result.filtered),
                 Lost(f, Dns), Lost(f, Rdap), Lost(f, Scoring), Lost(f, Trademark));
  }

  // ---- The lists and the report ---------------------------------------------------------------

  lemma ScoredMembers(f: Flow)
    ensures multiset(Assemble(f).scored) == multiset(At(f, Scoring).result.filtered)
                                            + multiset(At(f, Trademark).result.passed)
                                            + multiset(At(f, Trademark).result.filtered)
    ensures Domains(Assemble(f).scored) == Domains(f.scoring.result.filtered) + Output(f.trademark.result)
  {
    var s, t := f.scoring.result, f.trademark.result;
    DomainsConcat(s.filtered, t.passed);
    DomainsConcat(s.filtered + t.passed, t.filtered);
    hide Domains;
  }

  /**
    Scored are the candidates that scoring filtered and those the gate passed or filtered, and no
    others: all that scoring was given, less what scoring and the gate left over.
   */
  lemma ScoredExactly(env: Env, f: Flow)
    requires Contract(env) && LiveFlow(env, f)
    ensures Domains(Assemble(f).scored) + Lost(f, Scoring) + Lost(f, Trademark) == Domains(InputOf(f, Scoring))
    ensures multiset(Assemble(f).scored) == multiset(At(f, Scoring).result.filtered)
                                            + multiset(At(f, Trademark).result.passed)
                                            + multiset(At(f, Trademark).result.filtered)
  {
    hide *;
    ScoredMembers(f);
    ScoringBalance(env, f);
    SumUp(Domains(InputOf(f, Scoring)), Domains(f.scoring.result.passed), Domains(f.scoring.result.filtered),
          Output(f.trademark.result), Lost(f, Scoring), Lost(f, Trademark));
  }

  lemma ScoringBalance(env: Env, f: Flow)
    requires Contract(env) && LiveFlow(env, f)
    ensures Domains(InputOf(f, Scoring)) ==
      Domains(f.scoring.result.passed) + Domains(f.scoring.result.filtered) + Lost(f, Scoring)
    ensures Domains(f.scoring.result.passed) == Output(f.trademark.result) + Lost(f, Trademark)
  {
    Balance(env, f, Scoring);
    Balance(env, f, Trademark);
    hide Contract, LiveFlow, Domains, Lost;
  }

  lemma SumUp(input: multiset<string>, sp: multiset<string>, sf: multiset<string>, gate: multiset<string>,
              ls: multiset<string>, lt: multiset<string>)
    requires input == sp + sf + ls && sp == gate + lt
    ensures sf + gate + ls + lt == input
  {
  }

  /** Everything listed: what each stage filtered, and what the gate passed. */
  lemma AllExactly(f: Flow)
    ensures multiset(Assemble(f).all) == multiset(f.gen.filtered) + multiset(At(f, Dns).result.filtered)
        + multiset(At(f, Rdap).result.filtered) + multiset(At(f, Scoring).result.filtered)
        + multiset(At(f, Trademark).result.filtered) + multiset(At(f, Trademark).result.passed)
  {
  }

  /** What the run's report says of a stage: its own reports, and one entry if it did not end in time and well. */
  predicate Reported(o: Outcome, s: Stage, inputCount: nat, d: Degradation) {
    || (o.Resolved? && d in o.result.reported)
    || (o.Resolved? && o.timedOut
        && d == Degradation(s.Label(), Timeout, |o.result.passed| + |o.result.filtered|, inputCount))
    || (o.Exceeded? && d == Degradation(s.Label(), Timeout, 0, inputCount))
    || (o.Failed? && d == Degradation(s.Label(), Failure, 0, inputCount))
  }

  predicate Clean(o: Outcome) {
    o.Resolved? && !o.timedOut && o.result.reported == []
  }

  function EntriesOf(o: Outcome): nat {
    (if o.Resolved? then |o.result.reported| else 0) + (if o.Resolved? && !o.timedOut then 0 else 1)
  }

  lemma StageReport(env: Env, s: Stage, input: seq<Candidate>)
    ensures var o, l := LastOutcome(env, s, input), Live(env, s, input);
      && (forall d :: d in l.degradations <==> Reported(o, s, |input|, d))
      && |l.degradations| == EntriesOf(o)
      && l.errors == if o.Failed? then [StageError(s.Label(), o.isTransient)] else []
  {
    hide Decider;
  }

  /** The last try that was made of each stage, in a live flow. */
  function OutcomeIn(env: Env, f: Flow, s: Stage): Outcome {
    LastOutcome(env, s, InputOf(f, s))
  }

  lemma StageOfFlow(env: Env, f: Flow, s: Stage)
    requires LiveFlow(env, f)
    ensures var o := OutcomeIn(env, f, s);
      && (forall d :: d in At(f, s).degradations <==> Reported(o, s, |InputOf(f, s)|, d))
      && |At(f, s).degradations| == EntriesOf(o)
      && (At(f, s).errors == if o.Failed? then [StageError(s.Label(), o.isTransient)] else [])
      && (Clean(o) <==> At(f, s).degradations == []) && (o.Failed? ==> At(f, s).degradations != [])
  {
    StageReport(env, s, InputOf(f, s));
    assert At(f, s) == Live(env, s, InputOf(f, s));
    hide Live, LastOutcome, LiveFlow;
  }

  // What is in one of the four stages' lists.
  lemma InOneOfFour<T>(a: seq<T>, b: seq<T>, c: seq<T>, d: seq<T>, x: T)
    ensures x in a + b + c + d <==> x in a || x in b || x in c || x in d
  {
  }

  lemma ErrorsExactly(env: Env, f: Flow, e: StageError)
    requires LiveFlow(env, f)
    ensures e in Assemble(f).errors <==>
      exists s: Stage :: e.stage == s.Label() && OutcomeIn(env, f, s) == Failed(e.isTransient)
  {
    InOneOfFour(f.dns.errors, f.rdap.errors, f.scoring.errors, f.trademark.errors, e);
    forall s: Stage
      ensures e in At(f, s).errors <==> e.stage == s.Label() && OutcomeIn(env, f, s) == Failed(e.isTransient)
    {
      StageOfFlow(env, f, s);
    }
    hide LiveFlow, OutcomeIn;
    assert At(f, Dns).errors == f.dns.errors && At(f, Rdap).errors == f.rdap.errors;
    assert At(f, Scoring).errors == f.scoring.errors && At(f, Trademark).errors == f.trademark.errors;
  }

  lemma ReasonsExactly(env: Env, f: Flow, d: Degradation)
    requires LiveFlow(env, f)
    ensures d in Assemble(f).degradedReasons <==>
      exists s: Stage :: Reported(OutcomeIn(env, f, s), s, |InputOf(f, s)|, d)
  {
    InOneOfFour(f.dns.degradations, f.rdap.degradations, f.scoring.degradations, f.trademark.degradations, d);
    forall s: Stage
      ensures d in At(f, s).degradations <==> Reported(OutcomeIn(env, f, s), s, |InputOf(f, s)|, d)
    {
      StageOfFlow(env, f, s);
    }
    hide LiveFlow, OutcomeIn, Reported;
    assert At(f, Dns).degradations == f.dns.degradations && At(f, Rdap).degradations == f.rdap.degradations;
    assert At(f, Scoring).degradations == f.scoring.degradations;
    assert At(f, Trademark).degradations == f.trademark.degradations;
  }

  lemma ReasonsCounted(env: Env, f: Flow)
    requires LiveFlow(env, f)
    ensures |Assemble(f).degradedReasons| ==
      EntriesOf(OutcomeIn(env, f, Dns)) + EntriesOf(OutcomeIn(env, f, Rdap))
      + EntriesOf(OutcomeIn(env, f, Scoring)) + EntriesOf(OutcomeIn(env, f, Trademark))
    ensures Assemble(f).degraded <==> exists s: Stage :: !Clean(OutcomeIn(env, f, s))
  {
    StageOfFlow(env, f, Dns);
    StageOfFlow(env, f, Rdap);
    StageOfFlow(env, f, Scoring);
    StageOfFlow(env, f, Trademark);
    hide LiveFlow, OutcomeIn, Reported, Clean, EntriesOf;
  }

  /**
    The report is complete and says nothing else: an error for each stage that failed for good, an entry
    for each that failed or overran, with what it processed of what it was given, and what the stages
    report themselves; the run is degraded exactly when some stage was not clean.
   */
  lemma ReportExactly(env: Env, f: Flow)
    requires LiveFlow(env, f)
    ensures forall e :: e in Assemble(f).errors <==>
      exists s: Stage :: e.stage == s.Label() && OutcomeIn(env, f, s) == Failed(e.isTransient)
    ensures forall d :: d in Assemble(f).degradedReasons <==>
      exists s: Stage :: Reported(OutcomeIn(env, f, s), s, |InputOf(f, s)|, d)
    ensures |Assemble(f).degradedReasons| ==
      EntriesOf(OutcomeIn(env, f, Dns)) + EntriesOf(OutcomeIn(env, f, Rdap))
      + EntriesOf(OutcomeIn(env, f, Scoring)) + EntriesOf(OutcomeIn(env, f, Trademark))
    ensures Assemble(f).degraded <==> exists s: Stage :: !Clean(OutcomeIn(env, f, s))
  {
    hide *;
    ReasonsCounted(env, f);
    forall e ensures e in Assemble(f).errors <==>
        exists s: Stage :: e.stage == s.Label() && OutcomeIn(env, f, s) == Failed(e.isTransient)
    {
      ErrorsExactly(env, f, e);
    }
    forall d ensures d in Assemble(f).degradedReasons <==>
        exists s: Stage :: Reported(OutcomeIn(env, f, s), s, |InputOf(f, s)|, d)
    {
      ReasonsExactly(env, f, d);
    }
  }

  // ---- Loss ---------------------------------------------------------------------------------

  /** The run passed its abort checks, and its signal was not set when the last stage settled. */
  ghost predicate NotCut(env: Env, f: Flow) {
    && !env.abortedAfter(Dns) && !env.abortedAfter(Rdap) && !env.abortedAfter(Scoring)
    && !env.signalAt(Trademark, Decider(env, Trademark, InputOf(f, Trademark), 1))
  }

  lemma NotCutStage(env: Env, f: Flow, s: Stage)
    requires SignalStays(env) && NotCut(env, f)
    ensures !env.signalAt(s, Decider(env, s, InputOf(f, s), 1))
  {
  }

  lemma UnflaggedStages(f: Flow)
    requires !Assemble(f).degraded
    ensures forall s: Stage :: At(f, s).degradations == []
  {
  }

  function Shortfall(ds: seq<Degradation>): int {
    if ds == [] then 0 else ds[0].expected - ds[0].processed + Shortfall(ds[1..])
  }

  lemma {:induction false} ShortfallConcat(a: seq<Degradation>, b: seq<Degradation>)
    ensures Shortfall(a + b) == Shortfall(a) + Shortfall(b)
  {
    if a == [] {
      assert a + b == b;
    } else {
      assert (a + b)[1..] == a[1..] + b;
      ShortfallConcat(a[1..], b);
    }
  }

  lemma {:induction false} ShortfallPositive(ds: seq<Degradation>)
    requires forall d | d in ds :: d.processed <= d.expected
    ensures Shortfall(ds) >= 0
  {
    if ds != [] {
      ShortfallPositive(ds[1..]);
    }
  }

  lemma TotalShortfall(f: Flow)
    ensures Shortfall(Assemble(f).degradedReasons)
            == Shortfall(f.dns.degradations) + Shortfall(f.rdap.degradations)
               + Shortfall(f.scoring.degradations) + Shortfall(f.trademark.degradations)
  {
    var a := f.dns.degradations;
    var b := a + f.rdap.degradations;
    ShortfallConcat(a, f.rdap.degradations);
    ShortfallConcat(b, f.scoring.degradations);
    ShortfallConcat(b + f.scoring.degradations, f.trademark.degradations);
  }

  lemma OutputSize(r: StageResult)
    ensures |Output(r)| == Processed(r)
  {
    DomainsSize(r.passed);
    DomainsSize(r.filtered);
  }

  // What one settled outcome records, against what it processed.
  lemma RecordedShortfall(s: Stage, inputCount: nat, o: Outcome)
    requires o.Resolved? ==> forall d | d in o.result.reported :: d.processed <= d.expected
    ensures
      var settled := SettledBy(s, inputCount, o);
      Shortfall(settled.degradations) >=
        if o.Resolved? && !o.timedOut then 0 else inputCount - Processed(settled.result)
  {
    hide Processed;
    if o.Resolved? {
      ShortfallPositive(o.result.reported);
      var own := if o.timedOut then [Degradation(s.Label(), Timeout, Processed(o.result), inputCount)] else [];
      ShortfallConcat(own, o.result.reported);
      assert own != [] ==> own[1..] == [];
    } else {
      var own := [Degradation(s.Label(), Timeout, 0, inputCount)];
      assert own[1..] == [];
      assert Processed(EMPTY) >= 0;
    }
  }

  /** A live stage's degradation entries cover at least what it lost. */
  lemma StageLossIsCovered(env: Env, s: Stage, input: seq<Candidate>)
    requires Contract(env) && !env.signalAt(s, Decider(env, s, input, 1))
    ensures |Domains(input) - Output(Live(env, s, input).result)| <= Shortfall(Live(env, s, input).degradations)
  {
    hide Shortfall, Domains, Output, Processed, Decider, SettledBy;
    var o := LastOutcome(env, s, input);
    var r := Live(env, s, input).result;
    LiveOutput(env, s, input);
    MultisetSize(Output(r), Domains(input));
    OutputSize(r);
    DomainsSize(input);
    RecordedShortfall(s, |input|, o);
    if o.Resolved? && !o.timedOut {
      PunctualStage(env, s, input);
    }
  }

  lemma PunctualStage(env: Env, s: Stage, input: seq<Candidate>)
    requires Contract(env) && !env.signalAt(s, Decider(env, s, input, 1))
    requires LastOutcome(env, s, input).Resolved? && !LastOutcome(env, s, input).timedOut
    ensures Output(Live(env, s, input).result) == Domains(input)
  {
  }

  lemma FlowLossIsCovered(env: Env, f: Flow, s: Stage)
    requires Contract(env) && SignalStays(env) && LiveFlow(env, f) && NotCut(env, f)
    ensures |Lost(f, s)| <= Shortfall(At(f, s).degradations)
    ensures At(f, s).degradations == [] ==> Lost(f, s) == multiset{}
  {
    assert At(f, s) == Live(env, s, InputOf(f, s));
    NotCutStage(env, f, s);
    StageLossIsCovered(env, s, InputOf(f, s));
    LiveOutput(env, s, InputOf(f, s));
  }

  /**
    Loss is never silent: if a run that was not cut short is not flagged, every stage sorted
    its whole input; if it is flagged, the recorded shortfalls cover all that was left over.
   */
  lemma LossIsNeverSilent(env: Env, f: Flow)
    requires Contract(env) && SignalStays(env) && LiveFlow(env, f) && NotCut(env, f)
    ensures !Assemble(f).degraded ==> forall s: Stage :: Output(At(f, s).result) == Domains(InputOf(f, s))
    ensures |AllLost(f)| <= Shortfall(Assemble(f).degradedReasons)
  {
    if !Assemble(f).degraded {
      UnflaggedStages(f);
      forall s: Stage
        ensures Output(At(f, s).result) == Domains(InputOf(f, s))
      {
        FlowLossIsCovered(env, f, s);
        Balance(env, f, s);
      }
    }
    TotalLossIsCovered(env, f);
  }

  lemma TotalLossIsCovered(env: Env, f: Flow)
    requires Contract(env) && SignalStays(env) && LiveFlow(env, f) && NotCut(env, f)
    ensures |AllLost(f)| <= Shortfall(Assemble(f).degradedReasons)
  {
    hide Lost, Domains, Contract, LiveFlow, Shortfall, Assemble, NotCut;
    assert |Lost(f, Dns)| <= Shortfall(f.dns.degradations) by { FlowLossIsCovered(env, f, Dns); }
    assert |Lost(f, Rdap)| <= Shortfall(f.rdap.degradations) by { FlowLossIsCovered(env, f, Rdap); }
    assert |Lost(f, Scoring)| <= Shortfall(f.scoring.degradations) by { FlowLossIsCovered(env, f, Scoring); }
    assert |Lost(f, Trademark)| <= Shortfall(f.trademark.degradations) by { FlowLossIsCovered(env, f, Trademark); }
    TotalShortfall(f);
  }

  /** Unflagged, without Unknown candidates and not cut short: the lists hold exactly what was generated. */
  lemma CleanRunConserves(env: Env, f: Flow)
    requires Contract(env) && SignalStays(env) && LiveFlow(env, f) && NotCut(env, f)
    requires !Assemble(f).degraded && forall c :: c in f.rdap.result.passed ==> c.rdapStatus != Unknown
    ensures Output(f.gen) == Domains(Assemble(f).all)
  {
    CandidateAccounting(env, f);
    KnownMembers(f.rdap.result.passed);
    UnflaggedStages(f);
    FlowLossIsCovered(env, f, Dns);
    FlowLossIsCovered(env, f, Rdap);
    FlowLossIsCovered(env, f, Scoring);
    FlowLossIsCovered(env, f, Trademark);
    assert At(f, Dns).degradations == [] && At(f, Rdap).degradations == [];
    assert At(f, Scoring).degradations == [] && At(f, Trademark).degradations == [];
  }
}
