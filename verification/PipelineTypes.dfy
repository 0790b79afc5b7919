/** The values that flow through a pipeline run. */
module PipelineTypes {
  import opened Wrappers

  datatype DomainStatus = Unset | Available | Registered | Premium | Unknown | Error

  // `detail` stands for the remaining fields a stage may fill in (provenance, WHOIS data, status).
  datatype Candidate = Candidate(domain: string, rdapStatus: DomainStatus, score: Option<int>, detail: int)

  datatype Reason = Timeout | Failure | Reported
  datatype Degradation = Degradation(stage: string, reason: Reason, processed: nat, expected: nat)
  datatype StageError = StageError(stage: string, isTransient: bool)

  datatype StageResult = StageResult(passed: seq<Candidate>, filtered: seq<Candidate>, reported: seq<Degradation>)

  /** How one attempt at a budgeted stage ends. */
  datatype Outcome =
    | Resolved(result: StageResult, timedOut: bool)
    | Exceeded
    | Failed(isTransient: bool)

  // The four stages after candidate generation, with the labels the orchestrator gives them.
  datatype Stage = Dns | Rdap | Scoring | Trademark {
    function Label(): string {
      match this
      case Dns => "DnsPreFilter"
      case Rdap => "RdapConfirmation"
      case Scoring => "Scoring"
      case Trademark => "TrademarkGate"
    }

    function Index(): nat {
      match this
      case Dns => 1
      case Rdap => 2
      case Scoring => 3
      case Trademark => 4
    }
  }

  const GENERATION_STAGE := "CandidateGenerationStage"
  const GENERATION_LABEL := "CandidateGeneration"

  // ---- Multisets of domains ------------------------------------------------------------------

  ghost function Domains(cs: seq<Candidate>): multiset<string> {
    if cs == [] then multiset{} else multiset{cs[0].domain} + Domains(cs[1..])
  }

  lemma {:induction false} DomainsConcat(a: seq<Candidate>, b: seq<Candidate>)
    ensures Domains(a + b) == Domains(a) + Domains(b)
  {
    if a == [] {
      assert a + b == b;
    } else {
      assert (a + b)[1..] == a[1..] + b;
      DomainsConcat(a[1..], b);
    }
  }

  lemma {:induction false} DomainsSize(cs: seq<Candidate>)
    ensures |Domains(cs)| == |cs|
  {
    if cs != [] {
      DomainsSize(cs[1..]);
    }
  }
}
