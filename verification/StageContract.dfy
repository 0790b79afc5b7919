/** The budget race keeps the contract that the theorems about runs assume of each try. */
module StageContract {
  import opened PipelineTypes
  import opened PipelineFlow
  import StageRace

  /** The signal the stage was given: the run's own, or the race's abort. */
  predicate SignalSeen(es: seq<StageRace.Timed>, i: nat, setter: bool, runAborted: bool)
    requires i < |es|
  {
    runAborted || StageRace.Run(es[..i], setter).stageAborted
  }

  /**
    What is asked of a stage function: it sorts part of its input, and all of it unless the signal it
    was given was aborted when it resolved; and it never reports more processed than expected.
   */
  ghost predicate WholeUnlessAborted(es: seq<StageRace.Timed>, input: seq<Candidate>, setter: bool, runAborted: bool) {
    forall i | 0 <= i < |es| && es[i].event.Resolve? ::
      var r := es[i].event.result;
      && Output(r) <= Domains(input) && (forall d | d in r.reported :: d.processed <= d.expected)
      && (!SignalSeen(es, i, setter, runAborted) ==> Output(r) == Domains(input))
  }

  /** For every interleaving of timers and answers, such a stage's try honours the contract, `timedOut` included. */
  lemma RaceHonoursContract(es: seq<StageRace.Timed>, due: nat, grace: nat, b: nat, g: nat, setter: bool,
                            input: seq<Candidate>, runAborted: bool)
    requires StageRace.Schedule(es, due, grace, b, g) && WholeUnlessAborted(es, input, setter, runAborted)
    ensures var r := StageRace.Run(es, setter); r.outcome.Some? && Honours(input, r.outcome.value, runAborted)
  {
    var d := StageRace.DecisionComes(es, g);
    StageRace.RaceSettlesOnce(es, due, grace, b, g, d, setter);
    StageRace.StageAbortedIff(es, due, grace, b, g, d, setter);
    hide StageRace.Run, Output, Domains;
    assert es[d].event.Resolve? ==> es[d].event != es[b].event;
  }
}
