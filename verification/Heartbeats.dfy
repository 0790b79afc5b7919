/**
  The orchestrator's record follows the lock protocol: in every run of the protocol the record kept by
  one process, over its grants, heartbeat answers and releases of one stage lock, says exactly what the
  protocol says that process believes.  So exclusion holds of the records.
 */
module Heartbeats {
  import opened Wrappers
  import F = FencedLock
  import opened StageLocks
  import L = LockProtocol

  /** The stage lock a process takes; each acquisition is by a run of its own, with a new controller. */
  datatype Site = Site(tenant: string, runId: string, stage: string) {
    function Key(): string {
      HeartbeatKey(runId, stage)
    }
  }

  /** What one protocol step of process `w` is to its orchestrator; `n` numbers the controllers. */
  function Noted(p: L.Params, s: L.State, e: L.Event, w: L.Process, at: Site, n: nat): seq<Event>
    requires L.Enabled(p, s, e)
  {
    if L.Actor(e) != Some(w) then []
    else
      match e
      case Acquire(_, drawn, _) =>
        var got := F.TryFenced(s.table, p.name, p.ttl, s.now, p.id(w), drawn).1;
        if got.None? then [] else [Granted(at.tenant, at.runId, at.stage, LockInfo(n, got.value))]
      case Settle(_) =>
        var h := L.PhaseOf(s, w).hold;
        [Answered(at.Key(), h.failures, h.flight.value.answer.value)]
      case StopBeat(_) => [ReleaseSent(at.tenant, at.runId, at.stage)]
      case Unlock(_) => [Forgotten(at.runId, at.stage)]
      case UnlockLost(_) => [Forgotten(at.runId, at.stage)]
      case _ => []
  }

  /** The record of process `w` after a run of the protocol, continuing `log`. */
  function LogOf(p: L.Params, s: L.State, es: seq<L.Event>, w: L.Process, at: Site, log: seq<Event>): seq<Event>
    requires L.Legal(p, s, es)
    decreases |es|
  {
    if es == [] then log
    else LogOf(p, L.Step(p, s, es[0]), es[1..], w, at, log + Noted(p, s, es[0], w, at, |log|))
  }

  function Record(log: seq<Event>): Book {
    After(EMPTY_BOOK, log)
  }

  /** The record and the protocol agree on process `w`. */
  ghost predicate Tracks(s: L.State, w: L.Process, at: Site, log: seq<Event>) {
    var b, key := Record(log), at.Key();
    && (forall c <- b.aborted :: c < |log|)
    && (key in b.locks ==> b.locks[key].controller < |log|)
    && match L.PhaseOf(s, w)
       case Idle => key !in b.locks && key !in b.timers
       case Holding(h) =>
         && key in b.timers && key in b.locks && b.locks[key].fence == h.token
         && key in b.failures && b.failures[key] == h.failures
         && (h.aborted <==> b.locks[key].controller in b.aborted)
       case Releasing(token) => key !in b.timers && key in b.locks && b.locks[key].fence == token
       case Dead => true
  }

  lemma RecordSnoc(log: seq<Event>, e: Event)
    ensures Record(log + [e]) == Apply(Record(log), e)
  {
    AfterSnoc(EMPTY_BOOK, log, e);
  }

  /** One renewal's answer: the record's counter and abort are the protocol's. */
  lemma AnswerIsSettle(p: L.Params, s: L.State, w: L.Process, at: Site, log: seq<Event>)
    requires Tracks(s, w, at, log) && L.Enabled(p, s, L.Settle(w))
    ensures var h, v := L.PhaseOf(s, w).hold, Record(log + Noted(p, s, L.Settle(w), w, at, |log|));
      && at.Key() in v.failures && v.failures[at.Key()] == L.NextFailures(h.failures, h.flight.value.answer.value)
      && Tracks(L.Step(p, s, L.Settle(w)), w, at, log + Noted(p, s, L.Settle(w), w, at, |log|))
  {
    var h := L.PhaseOf(s, w).hold;
    RecordSnoc(log, Answered(at.Key(), h.failures, h.flight.value.answer.value));
    hide Record;
  }

  lemma AcquireTracks(p: L.Params, s: L.State, e: L.Event, w: L.Process, at: Site, log: seq<Event>)
    requires Tracks(s, w, at, log) && L.Enabled(p, s, e) && e.Acquire? && e.w == w
    ensures Tracks(L.Step(p, s, e), w, at, log + Noted(p, s, e, w, at, |log|))
  {
    var got := F.TryFenced(s.table, p.name, p.ttl, s.now, p.id(w), e.drawn).1;
    if got.None? {
      assert log + [] == log;
    } else {
      RecordSnoc(log, Granted(at.tenant, at.runId, at.stage, LockInfo(|log|, got.value)));
    }
    hide Record, F.TryFenced;
  }

  lemma ReleaseTracks(p: L.Params, s: L.State, e: L.Event, w: L.Process, at: Site, log: seq<Event>)
    requires Tracks(s, w, at, log) && L.Enabled(p, s, e) && L.Actor(e) == Some(w)
    requires e.StopBeat? || e.Unlock? || e.UnlockLost?
    ensures Tracks(L.Step(p, s, e), w, at, log + Noted(p, s, e, w, at, |log|))
  {
    RecordSnoc(log, ReleaseSent(at.tenant, at.runId, at.stage));
    RecordSnoc(log, Forgotten(at.runId, at.stage));
    hide Record;
  }

  lemma StepTracks(p: L.Params, s: L.State, e: L.Event, w: L.Process, at: Site, log: seq<Event>)
    requires Tracks(s, w, at, log) && L.Enabled(p, s, e)
    ensures Tracks(L.Step(p, s, e), w, at, log + Noted(p, s, e, w, at, |log|))
  {
    if L.Actor(e) == Some(w) && e.Acquire? {
      AcquireTracks(p, s, e, w, at, log);
    } else if L.Actor(e) == Some(w) && e.Settle? {
      AnswerIsSettle(p, s, w, at, log);
    } else if L.Actor(e) == Some(w) && (e.StopBeat? || e.Unlock? || e.UnlockLost?) {
      ReleaseTracks(p, s, e, w, at, log);
    } else {
      assert log + [] == log;
      hide Record;
    }
  }

  lemma {:induction false} RunTracks(p: L.Params, s: L.State, es: seq<L.Event>, w: L.Process, at: Site, log: seq<Event>)
    requires Tracks(s, w, at, log) && L.Legal(p, s, es)
    ensures Tracks(L.After(p, s, es), w, at, LogOf(p, s, es, w, at, log))
    decreases |es|
  {
    hide Tracks, L.Step, L.Enabled, Noted;
    if es != [] {
      StepTracks(p, s, es[0], w, at, log);
      RunTracks(p, L.Step(p, s, es[0]), es[1..], w, at, log + Noted(p, s, es[0], w, at, |log|));
    }
  }

  /** By its record the process holds the lock: its heartbeat is running and its run not aborted. */
  predicate HoldsByRecord(b: Book, key: string) {
    key in b.timers && key in b.locks && b.locks[key].controller !in b.aborted
  }

  /**
    In every run of the protocol, a process that has not crashed believes it holds the lock exactly when
    its record says so.
   */
  lemma BeliefIsRecord(p: L.Params, start: nat, es: seq<L.Event>, w: L.Process, at: Site)
    requires L.Legal(p, L.Init(start), es) && !L.PhaseOf(L.After(p, L.Init(start), es), w).Dead?
    ensures L.Believes(L.After(p, L.Init(start), es), w)
       <==> HoldsByRecord(Record(LogOf(p, L.Init(start), es, w, at, [])), at.Key())
  {
    RunTracks(p, L.Init(start), es, w, at, []);
  }

  /** So with a TTL of three heartbeats and two calls no two processes ever hold the lock by their records. */
  lemma RecordsAreExclusive(p: L.Params, start: nat, es: seq<L.Event>, v: L.Process, w: L.Process, at: Site)
    requires L.ValidParams(p) && 3 * p.beat + 2 * p.latency <= p.ttl && v != w
    requires L.Legal(p, L.Init(start), es) && L.FreshAcquisitions(p, L.Init(start), es)
    requires var s := L.After(p, L.Init(start), es); !L.PhaseOf(s, v).Dead? && !L.PhaseOf(s, w).Dead?
    ensures !(HoldsByRecord(Record(LogOf(p, L.Init(start), es, v, at, [])), at.Key())
              && HoldsByRecord(Record(LogOf(p, L.Init(start), es, w, at, [])), at.Key()))
  {
    hide HoldsByRecord, LogOf, L.After, L.Legal, L.FreshAcquisitions, Record;
    BeliefIsRecord(p, start, es, v, at);
    BeliefIsRecord(p, start, es, w, at);
    L.ExclusiveInEveryRun(p, start, es);
  }
}
