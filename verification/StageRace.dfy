/**
  One budgeted stage execution: the stage's promise races a budget timer, which aborts
  the stage and opens a grace window, and a grace timer, which gives up on it.
 */
module StageRace {
  import opened Wrappers
  import opened PipelineTypes

  datatype Event =
    | BudgetTimer
    | GraceTimer
    | Resolve(result: StageResult)
    | Reject(isAbort: bool, isTransient: bool)

  datatype Timed = Timed(event: Event, at: nat)

  datatype Race = Race(settled: bool, budgetHit: bool, stageAborted: bool, outcome: Option<Outcome>,
                       settledAt: nat, settlements: nat, restores: nat)

  const OPEN: Race := Race(false, false, false, None, 0, 0, 0)

  function Settle(r: Race, o: Outcome, at: nat, setterAttempted: bool): Race {
    if r.settled then r
    else r.(settled := true, outcome := Some(o), settledAt := at, settlements := r.settlements + 1,
            restores := if setterAttempted then r.restores + 1 else r.restores)
  }

  function Step(r: Race, e: Timed, setterAttempted: bool): Race {
    match e.event
    case BudgetTimer => if r.settled then r else r.(budgetHit := true, stageAborted := true)
    case GraceTimer => Settle(r, Exceeded, e.at, setterAttempted)
    case Resolve(result) => Settle(r, Resolved(result, r.budgetHit), e.at, setterAttempted)
    case Reject(isAbort, isTransient) =>
      Settle(r, if r.budgetHit && isAbort then Exceeded else Failed(isTransient), e.at, setterAttempted)
  }

  function Run(es: seq<Timed>, setterAttempted: bool): Race {
    if es == [] then OPEN else Step(Run(es[..|es| - 1], setterAttempted), es[|es| - 1], setterAttempted)
  }

  class StageExecution {
    var settled: bool
    var budgetHit: bool
    var stageAborted: bool
    var outcome: Option<Outcome>
    var settledAt: nat
    var settlements: nat
    var restores: nat
    // Whether setBusyTimeout was called for this stage, successfully or not.
    const setterAttempted: bool

    constructor (setterAttempted: bool)
      ensures this.setterAttempted == setterAttempted && View() == OPEN
    {
      this.setterAttempted := setterAttempted;
      settled, budgetHit, stageAborted, outcome := false, false, false, None;
      settledAt, settlements, restores := 0, 0, 0;
    }

    ghost function View(): Race
      reads this
    {
      Race(settled, budgetHit, stageAborted, outcome, settledAt, settlements, restores)
    }

    method SettleWith(o: Outcome, at: nat)
      modifies this
      ensures View() == Settle(old(View()), o, at, setterAttempted)
    {
      if settled {
        return;
      }
      settled, settledAt, settlements := true, at, settlements + 1;
      if setterAttempted {
        restores := restores + 1;
      }
      outcome := Some(o);
    }

    method Handle(e: Timed)
      modifies this
      ensures View() == Step(old(View()), e, setterAttempted)
    {
      match e.event
      case BudgetTimer =>
        if !settled {
          budgetHit, stageAborted := true, true;
        }
      case GraceTimer => SettleWith(Exceeded, e.at);
      case Resolve(result) => SettleWith(Resolved(result, budgetHit), e.at);
      case Reject(isAbort, isTransient) =>
        SettleWith(if budgetHit && isAbort then Exceeded else Failed(isTransient), e.at);
    }
  }

  // ---- Every interleaving --------------------------------------------------------------------

  predicate IsAnswer(e: Event) {
    e.Resolve? || e.Reject?
  }

  predicate Decides(e: Event) {
    IsAnswer(e) || e.GraceTimer?
  }

  /**
    A complete schedule: each timer fires once, the budget timer at the instant `due` and the grace
    timer at `due + grace`, the stage answers at most once, and time does not run back.
    (A timer cleared on settlement is one whose firing changes nothing.)
   */
  ghost predicate Schedule(es: seq<Timed>, due: nat, grace: nat, b: nat, g: nat) {
    && b < g < |es|
    && es[b] == Timed(BudgetTimer, due) && es[g] == Timed(GraceTimer, due + grace)
    && (forall i | 0 <= i < |es| :: (es[i].event.BudgetTimer? ==> i == b) && (es[i].event.GraceTimer? ==> i == g))
    && (forall i, j | 0 <= i < j < |es| :: es[i].at <= es[j].at && !(IsAnswer(es[i].event) && IsAnswer(es[j].event)))
  }

  /** The first event that decides, if it is among the first `n`. */
  ghost predicate FirstDecision(es: seq<Timed>, d: nat) {
    d < |es| && Decides(es[d].event) && forall i | 0 <= i < d :: !Decides(es[i].event)
  }

  /** What the caller must be told, read off the schedule alone. */
  function Verdict(e: Event, afterBudget: bool): Outcome {
    match e
    case Resolve(result) => Resolved(result, afterBudget)
    case Reject(isAbort, isTransient) => if afterBudget && isAbort then Exceeded else Failed(isTransient)
    case _ => Exceeded
  }

  lemma {:induction false} UndecidedPrefix(es: seq<Timed>, n: nat, setter: bool)
    requires n <= |es| && forall i | 0 <= i < n :: !Decides(es[i].event)
    ensures
      var r := Run(es[..n], setter);
      && !r.settled && r.settlements == 0 && r.restores == 0
      && (r.budgetHit <==> exists i :: 0 <= i < n && es[i].event.BudgetTimer?)
  {
    if n > 0 {
      assert es[..n][..n - 1] == es[..n - 1];
      UndecidedPrefix(es, n - 1, setter);
    }
  }

  lemma {:induction false} SettledStays(es: seq<Timed>, m: nat, n: nat, setter: bool)
    requires m <= n <= |es| && Run(es[..m], setter).settled
    ensures Run(es[..n], setter) == Run(es[..m], setter)
  {
    if m < n {
      assert es[..n][..n - 1] == es[..n - 1];
      SettledStays(es, m, n - 1, setter);
    }
  }

  // The deciding step on a race that no event has decided yet.
  lemma DecidingStep(r: Race, e: Timed, setter: bool)
    requires Decides(e.event) && !r.settled && r.settlements == 0 && r.restores == 0
    ensures
      var after := Step(r, e, setter);
      && after.settled && after.settlements == 1 && after.settledAt == e.at
      && after.outcome == Some(Verdict(e.event, r.budgetHit))
      && after.restores == (if setter then 1 else 0)
  {
  }

  // Before the first decision only the budget timer can have fired, and the grace timer decides.
  lemma DecisionInSchedule(es: seq<Timed>, due: nat, grace: nat, b: nat, g: nat, d: nat)
    requires Schedule(es, due, grace, b, g) && FirstDecision(es, d)
    ensures d <= g && es[d].at <= due + grace
    ensures b < d <==> exists i :: 0 <= i < d && es[i].event.BudgetTimer?
  {
    assert Decides(es[g].event);
    assert d < g ==> es[d].at <= es[g].at;
    assert b < d ==> es[b].event.BudgetTimer?;
  }

  lemma RunSnoc(es: seq<Timed>, d: nat, setter: bool)
    requires d < |es|
    ensures Run(es[..d + 1], setter) == Step(Run(es[..d], setter), es[d], setter)
  {
    assert es[..d + 1][..d] == es[..d];
  }

  /**
    For every interleaving the promise settles exactly once, at the first decision, not after the
    budget timer's instant plus the grace; the verdict is the schedule's, with `timedOut` exactly when
    the budget timer fired first; the busy timeout is restored exactly once if it was touched.
   */
  lemma RaceSettlesOnce(es: seq<Timed>, due: nat, grace: nat, b: nat, g: nat, d: nat, setter: bool)
    requires Schedule(es, due, grace, b, g) && FirstDecision(es, d)
    ensures
      var r := Run(es, setter);
      && r.settled && r.settlements == 1
      && r.settledAt == es[d].at <= due + grace
      && r.outcome == Some(Verdict(es[d].event, b < d))
      && r.restores == (if setter then 1 else 0)
  {
    DecisionInSchedule(es, due, grace, b, g, d);
    UndecidedPrefix(es, d, setter);
    hide *;
    RunSnoc(es, d, setter);
    DecidingStep(Run(es[..d], setter), es[d], setter);
    SettledStays(es, d + 1, |es|, setter);
    assert es[..|es|] == es;
  }

  /** Budget exhausted so far: the budget timer fired before anything decided. */
  ghost predicate Overran(es: seq<Timed>, n: nat)
    requires n <= |es|
  {
    exists i :: 0 <= i < n && es[i].event.BudgetTimer? && forall j | 0 <= j < i :: !Decides(es[j].event)
  }

  lemma {:induction false} SettledIff(es: seq<Timed>, n: nat, setter: bool)
    requires n <= |es|
    ensures Run(es[..n], setter).settled <==> exists i :: 0 <= i < n && Decides(es[i].event)
  {
    if n > 0 {
      RunSnoc(es, n - 1, setter);
      SettledIff(es, n - 1, setter);
    }
  }

  /** The stage is told to stop by the budget timer of a race still open, and by nothing else. */
  lemma {:induction false} AbortSeen(es: seq<Timed>, n: nat, setter: bool)
    requires n <= |es|
    ensures Run(es[..n], setter).stageAborted <==> Overran(es, n)
  {
    if n > 0 {
      RunSnoc(es, n - 1, setter);
      AbortSeen(es, n - 1, setter);
      SettledIff(es, n - 1, setter);
      hide Run;
      var now := es[n - 1].event.BudgetTimer? && forall j | 0 <= j < n - 1 :: !Decides(es[j].event);
      assert Overran(es, n) <==> (Overran(es, n - 1) || now);
    }
  }

  /** Over a whole schedule the stage is aborted exactly when the budget ran out before the first decision. */
  lemma StageAbortedIff(es: seq<Timed>, due: nat, grace: nat, b: nat, g: nat, d: nat, setter: bool)
    requires Schedule(es, due, grace, b, g) && FirstDecision(es, d)
    ensures Run(es, setter).stageAborted <==> b < d
    ensures !Run(es[..d], setter).stageAborted <==> d < b
  {
    DecisionInSchedule(es, due, grace, b, g, d);
    AbortSeen(es, |es|, setter);
    AbortSeen(es, d, setter);
    assert es[..|es|] == es;
    hide Run;
    assert es[b].event.BudgetTimer? && Decides(es[d].event);
  }

  /** A decision always comes: at the latest the grace timer. */
  lemma DecisionComes(es: seq<Timed>, g: nat) returns (d: nat)
    requires g < |es| && es[g].event.GraceTimer?
    ensures FirstDecision(es, d) && d <= g
  {
    d := 0;
    while !Decides(es[d].event)
      invariant d <= g && forall i | 0 <= i < d :: !Decides(es[i].event)
      decreases g - d
    {
      d := d + 1;
    }
  }

  // ---- The window ----------------------------------------------------------------------------

  datatype BudgetOptions = BudgetOptions(baseMs: int, perCandidateMs: int, capMs: int)

  function StageBudget(candidates: nat, o: BudgetOptions): int {
    var scaled := o.baseMs + candidates * o.perCandidateMs;
    if scaled < o.capMs then scaled else o.capMs
  }

  lemma {:induction false} SharesGrow(n: nat, m: nat, share: int)
    requires 0 <= share && n < m
    ensures n * share + share <= m * share && (n + 1) * share == n * share + share
    decreases m
  {
    if m > n + 1 {
      SharesGrow(n, m - 1, share);
    }
  }

  /**
    With nothing to do a stage gets the base time; each candidate adds its share as long as the sum is
    within the cap; and past the first sum that is not, every stage gets the cap.
   */
  lemma BudgetScales(n: nat, m: nat, o: BudgetOptions)
    requires 0 <= o.perCandidateMs && n < m
    ensures o.baseMs <= o.capMs ==> StageBudget(0, o) == o.baseMs
    ensures StageBudget(n, o) + o.perCandidateMs <= o.capMs ==>
              StageBudget(n + 1, o) == StageBudget(n, o) + o.perCandidateMs
    ensures StageBudget(n, o) + o.perCandidateMs >= o.capMs ==> StageBudget(m, o) == o.capMs
    ensures StageBudget(n, o) <= StageBudget(m, o) <= o.capMs
  {
    SharesGrow(n, n + 1, o.perCandidateMs);
    SharesGrow(n, m, o.perCandidateMs);
  }

  // `Expired` aborts the whole run; without a positive limit the stage is awaited as it is.
  datatype Window = Expired | Unbounded | Bounded(ms: nat)

  function WindowFor(timeoutMs: int, elapsed: nat, budgetMs: int): Window {
    if timeoutMs > 0 && elapsed >= timeoutMs then Expired
    else if timeoutMs > 0 && (budgetMs <= 0 || timeoutMs - elapsed < budgetMs) then Bounded(timeoutMs - elapsed)
    else if budgetMs > 0 then Bounded(budgetMs)
    else Unbounded
  }

  /**
    Instants are counted from the run's start: `elapsed` is when the stage's window was computed,
    `armed` when its timers were set, the awaited busy-timeout setter lying between them.  A stage whose
    window was computed within the pipeline's deadline is given up on at the latest `grace` after that
    deadline, put off by that wait; counted from the timers, at the latest `grace` after its own budget,
    so after the cap however many candidates it was given; one that does not answer in the window uses
    all of it; and a stage can run on without end exactly when neither limit is positive.
   */
  lemma StageMeetsDeadline(es: seq<Timed>, timeoutMs: int, elapsed: nat, armed: nat, candidates: nat, o: BudgetOptions,
                           grace: nat, b: nat, g: nat, setter: bool)
    requires elapsed <= armed
    requires var w := WindowFor(timeoutMs, elapsed, StageBudget(candidates, o));
      w.Bounded? ==> Schedule(es, armed + w.ms, grace, b, g)
    ensures var budget := StageBudget(candidates, o); var w := WindowFor(timeoutMs, elapsed, budget);
      w.Bounded? ==>
        var r := Run(es, setter);
        && r.settled && w.ms > 0
        && (timeoutMs > 0 ==> r.settledAt <= timeoutMs + (armed - elapsed) + grace)
        && (budget > 0 ==> r.settledAt <= armed + budget + grace <= armed + o.capMs + grace)
        && ((forall i | 0 <= i < g :: !IsAnswer(es[i].event)) ==> r.settledAt == armed + w.ms + grace)
    ensures WindowFor(timeoutMs, elapsed, StageBudget(candidates, o)).Unbounded? <==>
      timeoutMs <= 0 && StageBudget(candidates, o) <= 0
  {
    var w := WindowFor(timeoutMs, elapsed, StageBudget(candidates, o));
    if w.Bounded? {
      var d := DecisionComes(es, g);
      RaceSettlesOnce(es, armed + w.ms, grace, b, g, d, setter);
      hide Run;
    }
  }
}
