/**
  The pipeline orchestrator as the source writes it: fields updated by methods, a retry
  loop, per-run ledgers filled in place, five stages in sequence.  Each method is proved to
  compute what PipelineFlow and StageLocks define.  At every await of lock handling and stages
  heartbeat answers and late saves of given-up tries may come in, in any number and order.
 */
module Orchestrator {
  import opened Wrappers
  import opened PipelineTypes
  import opened CheckpointStore
  import opened PipelineFlow
  import opened PipelineRuns
  import opened StageLocks
  import opened RunSaves

  datatype StageReturn = Done(result: StageResult) | Null | Threw
  datatype RunOutcome = Completed(result: RunResult) | GenerationFailed | Aborted

  // The arrays a run collects its errors and degradations in.
  class Ledger {
    var errors: seq<StageError>
    var degradations: seq<Degradation>

    constructor ()
      ensures errors == [] && degradations == []
    {
      errors, degradations := [], [];
    }
  }

  class PipelineOrchestrator {
    var stageLocks: map<string, LockInfo>
    var heartbeatTimers: set<string>
    var heartbeatFailures: map<string, nat>
    // Calls made to the lock provider, and controllers aborted by heartbeats.
    var granted: set<Claim>
    var unlocked: set<Claim>
    var aborted: set<nat>
    // Calls made to the checkpoint store (not awaited), and the saves given-up tries will still make.
    var savesIssued: seq<SaveCall>
    var pendingSaves: multiset<SaveArg>
    const hasLock: bool
    const intraCheckpoints: bool  // checkpointBatchSize > 0
    // What happened to the lock records, in order.
    ghost var log: seq<Event>

    constructor (hasLock: bool, intraCheckpoints: bool)
      ensures this.hasLock == hasLock && this.intraCheckpoints == intraCheckpoints
      ensures View() == EMPTY_BOOK && log == [] && savesIssued == [] && pendingSaves == multiset{}
    {
      this.hasLock, this.intraCheckpoints := hasLock, intraCheckpoints;
      stageLocks, heartbeatTimers, heartbeatFailures := map[], {}, map[];
      granted, unlocked, aborted, savesIssued, pendingSaves := {}, {}, {}, [], multiset{};
      log := [];
    }

    ghost function View(): Book
      reads this
    {
      Book(stageLocks, heartbeatTimers, heartbeatFailures, granted, unlocked, aborted)
    }

    ghost function Now(): Mark
      reads this
    {
      Mark(View(), log, savesIssued, pendingSaves)
    }

    // ---- Awaits -----------------------------------------------------------------------------

    // Any of the saves that given-up tries still owe may be made meanwhile.
    method IssueLateSaves()
      modifies this`savesIssued, this`pendingSaves
      ensures Grows(old(Now()), Now(), [], multiset{})
    {
      hide Grows;
      GrowsNot(Now());
      var more: bool := *;
      while more && pendingSaves != multiset{}
        invariant Grows(old(Now()), Now(), [], multiset{})
        decreases |pendingSaves|
      {
        var call :| call in pendingSaves;
        GrowsByStray(old(Now()), Now(), call, [], multiset{});
        pendingSaves := pendingSaves - multiset{call};
        savesIssued := savesIssued + [SaveCall(call.0, call.1, true)];
        more := *;
      }
    }

    /** The heartbeat callback once its renewal is answered; `counted` was read when the timer fired. */
    method OnRenewalAnswered(key: string, counted: nat, renewed: bool)
      modifies this`heartbeatFailures, this`aborted, this`log
      ensures View() == Answer(old(View()), key, counted, renewed)
      ensures log == old(log) + [Answered(key, counted, renewed)]
    {
      if renewed {
        heartbeatFailures := heartbeatFailures[key := 0];
      } else {
        var newFailures := counted + 1;
        heartbeatFailures := heartbeatFailures[key := newFailures];
        if newFailures >= 3 && key in stageLocks {
          aborted := aborted + {stageLocks[key].controller};
        }
      }
      log := log + [Answered(key, counted, renewed)];
    }

    // Any heartbeat answers may come in meanwhile, and any late saves.
    method Await()
      modifies this`heartbeatFailures, this`aborted, this`log, this`savesIssued, this`pendingSaves
      ensures SameLocks(old(View()), View()) && Grows(old(Now()), Now(), [], multiset{})
      ensures OnlyLateCounters(old(View()), old(log)) ==> OnlyLateCounters(View(), log)
    {
      hide Grows, OnlyLateCounters;
      IssueLateSaves();
      if !hasLock {
        return;
      }
      var answers: seq<(string, nat, bool)> := *;
      for i := 0 to |answers|
        invariant SameLocks(old(View()), View()) && Grows(old(Now()), Now(), [], multiset{})
        invariant OnlyLateCounters(old(View()), old(log)) ==> OnlyLateCounters(View(), log)
      {
        var e := Answered(answers[i].0, answers[i].1, answers[i].2);
        GrowsByEvent(old(Now()), Now(), e, [], multiset{});
        if OnlyLateCounters(View(), log) {
          LateStep(View(), log, e);
        }
        OnRenewalAnswered(answers[i].0, answers[i].1, answers[i].2);
      }
    }

    // ---- Locks ------------------------------------------------------------------------------

    method StartStageHeartbeat(runId: string, stage: string)
      modifies this`heartbeatTimers, this`heartbeatFailures
      ensures heartbeatTimers == old(heartbeatTimers) + {HeartbeatKey(runId, stage)}
      ensures heartbeatFailures == if HeartbeatKey(runId, stage) in old(heartbeatTimers) then old(heartbeatFailures)
                                   else old(heartbeatFailures)[HeartbeatKey(runId, stage) := 0]
    {
      var key := HeartbeatKey(runId, stage);
      if key in heartbeatTimers {
        return;
      }
      heartbeatFailures := heartbeatFailures[key := 0];
      heartbeatTimers := heartbeatTimers + {key};
    }

    method StopStageHeartbeat(runId: string, stage: string)
      modifies this`heartbeatTimers, this`heartbeatFailures
      ensures heartbeatTimers == old(heartbeatTimers) - {HeartbeatKey(runId, stage)}
      ensures heartbeatFailures == old(heartbeatFailures) - {HeartbeatKey(runId, stage)}
    {
      var key := HeartbeatKey(runId, stage);
      if key in heartbeatTimers {
        heartbeatTimers := heartbeatTimers - {key};
      }
      heartbeatFailures := heartbeatFailures - {key};
    }

    method AcquireStageLock(env: Env, tenant: string, runId: string, stage: string, controller: nat) returns (ok: bool)
      modifies this`stageLocks, this`heartbeatTimers, this`heartbeatFailures, this`granted
      modifies this`aborted, this`log, this`savesIssued, this`pendingSaves
      ensures ok == (!hasLock || env.grant(stage).Some?)
      ensures SameLocks(LocksAfter(env, hasLock, old(View()), tenant, runId, stage, controller), View())
      ensures Grows(old(Now()), Now(), [], multiset{})
      ensures old(granted) <= granted
      ensures hasLock && ok ==>
                && HeartbeatKey(runId, stage) in stageLocks && HeartbeatKey(runId, stage) in heartbeatTimers
                && stageLocks[HeartbeatKey(runId, stage)] == LockInfo(controller, env.grant(stage).value)
                && RanUnderLock(env, granted, tenant, runId, stage)
    {
      hide Grows;
      GrowsNot(Now());
      if !hasLock {
        return true;
      }
      var fence := env.grant(stage);
      Await();
      if fence.None? {
        return false;
      }
      GrowsByEvent(old(Now()), Now(), Granted(tenant, runId, stage, LockInfo(controller, fence.value)), [], multiset{});
      granted := granted + {Claim(LockKey(tenant, stage, runId), fence.value)};
      stageLocks := stageLocks[HeartbeatKey(runId, stage) := LockInfo(controller, fence.value)];
      StartStageHeartbeat(runId, stage);
      log := log + [Granted(tenant, runId, stage, LockInfo(controller, fence.value))];
      return true;
    }

    method ReleaseStageLock(tenant: string, runId: string, stage: string)
      modifies this`stageLocks, this`heartbeatTimers, this`heartbeatFailures, this`unlocked
      modifies this`aborted, this`log, this`savesIssued, this`pendingSaves
      ensures SameLocks(if hasLock then Release(old(View()), tenant, runId, stage) else old(View()), View())
      ensures Grows(old(Now()), Now(), [], multiset{})
    {
      hide Grows;
      GrowsNot(Now());
      if !hasLock {
        return;
      }
      var key := HeartbeatKey(runId, stage);
      if key !in stageLocks {
        assert stageLocks - {key} == stageLocks;
        return;
      }
      SendRelease(tenant, runId, stage);
      label Sent:
      Await();
      hide StartRelease;
      GrowsIdly(old(Now()), old@Sent(Now()), Now(), [], multiset{});
      GrowsByEvent(old(Now()), Now(), Forgotten(runId, stage), [], multiset{});
      stageLocks := stageLocks - {key};
      log := log + [Forgotten(runId, stage)];
    }

    // Up to the await: the heartbeat stopped and the unlock sent.
    method SendRelease(tenant: string, runId: string, stage: string)
      requires HeartbeatKey(runId, stage) in stageLocks
      modifies this`heartbeatTimers, this`heartbeatFailures, this`unlocked, this`log
      ensures View() == StartRelease(old(View()), tenant, runId, stage)
      ensures Grows(old(Now()), Now(), [], multiset{})
    {
      hide Grows;
      GrowsNot(Now());
      GrowsByEvent(Now(), Now(), ReleaseSent(tenant, runId, stage), [], multiset{});
      StopStageHeartbeat(runId, stage);
      unlocked := unlocked + {Claim(LockKey(tenant, stage, runId), stageLocks[HeartbeatKey(runId, stage)].fence)};
      log := log + [ReleaseSent(tenant, runId, stage)];
    }

    method StopAllHeartbeats()
      modifies this`heartbeatTimers, this`heartbeatFailures, this`log
      ensures View() == StopAll(old(View())) && OnlyLateCounters(View(), log)
      ensures Grows(old(Now()), Now(), [], multiset{})
    {
      hide Grows, OnlyLateCounters;
      GrowsNot(Now());
      GrowsByEvent(Now(), Now(), Swept, [], multiset{});
      LateStep(View(), log, Swept);
      heartbeatTimers, heartbeatFailures := {}, map[];
      log := log + [Swept];
    }

    method CleanupAllStageLocks(tenant: string, runId: string)
      modifies this`stageLocks, this`heartbeatTimers, this`heartbeatFailures, this`unlocked
      modifies this`aborted, this`log, this`savesIssued, this`pendingSaves
      ensures SameLocks(if hasLock then Cleanup(old(View()), tenant, runId) else StopAll(old(View())), View())
      ensures Grows(old(Now()), Now(), [], multiset{}) && OnlyLateCounters(View(), log)
    {
      hide Grows, OnlyLateCounters;
      StopAllHeartbeats();
      if !hasLock {
        return;
      }
      label Swept:
      AllCalls(View(), tenant, runId);
      UnlockAll(tenant, runId, old(Now()));
      GrowsByEvent(old(Now()), Now(), Emptied, [], multiset{});
      LateStep(View(), log, Emptied);
      stageLocks := map[];
      log := log + [Emptied];
    }

    // Cleanup's loop over the map.
    method UnlockAll(tenant: string, runId: string, ghost from: Mark)
      requires Grows(from, Now(), [], multiset{}) && OnlyLateCounters(View(), log)
      modifies this`unlocked, this`heartbeatFailures, this`aborted, this`log, this`savesIssued, this`pendingSaves
      ensures unlocked == UnlockedFor(old(View()), stageLocks.Keys, tenant, runId)
      ensures Grows(from, Now(), [], multiset{}) && OnlyLateCounters(View(), log)
    {
      hide Grows, OnlyLateCounters, UnlockedFor, LockKey, StageInKey;
      NoCalls(View(), tenant, runId);
      ghost var book, done := View(), {};
      var rest := stageLocks.Keys;
      while rest != {}
        invariant done + rest == book.locks.Keys
        invariant unlocked == UnlockedFor(book, done, tenant, runId)
        invariant Grows(from, Now(), [], multiset{}) && OnlyLateCounters(View(), log)
        decreases |rest|
      {
        var k :| k in rest;
        OneMoreCall(book, done, k, tenant, runId);
        UnlockOne(tenant, runId, k, from);
        rest, done := rest - {k}, done + {k};
      }
      assert done == stageLocks.Keys;
    }

    // One turn of cleanup's loop.
    method UnlockOne(tenant: string, runId: string, k: string, ghost start: Mark)
      requires k in stageLocks && Grows(start, Now(), [], multiset{}) && OnlyLateCounters(View(), log)
      modifies this`unlocked, this`heartbeatFailures, this`aborted, this`log, this`savesIssued, this`pendingSaves
      ensures unlocked == old(unlocked) + {Claim(LockKey(tenant, StageInKey(k), runId), stageLocks[k].fence)}
      ensures Grows(start, Now(), [], multiset{}) && OnlyLateCounters(View(), log)
    {
      hide Grows, OnlyLateCounters;
      var e := EntryUnlocked(tenant, runId, k);
      GrowsByEvent(start, Now(), e, [], multiset{});
      LateStep(View(), log, e);
      unlocked := unlocked + {Claim(LockKey(tenant, StageInKey(k), runId), stageLocks[k].fence)};
      log := log + [e];
      label Sent:
      Await();
      GrowsIdly(start, old@Sent(Now()), Now(), [], multiset{});
    }

    // ---- Stages -----------------------------------------------------------------------------

    // A resolved try: a budget overrun and whatever the stage reports are recorded.
    static method Harvest(s: Stage, result: StageResult, timedOut: bool, inputCount: nat, ledger: Ledger)
      modifies ledger
      ensures ledger.errors == old(ledger.errors)
      ensures ledger.degradations == old(ledger.degradations)
          + SettledBy(s, inputCount, Resolved(result, timedOut)).degradations
    {
      if timedOut {
        var processed := |result.passed| + |result.filtered|;
        ledger.degradations := ledger.degradations + [Degradation(s.Label(), Timeout, processed, inputCount)];
      }
      if |result.reported| > 0 {
        ledger.degradations := ledger.degradations + result.reported;
      }
    }

    // A try given up for good: recorded with nothing processed.
    static method Recover(s: Stage, failure: Option<bool>, inputCount: nat, ledger: Ledger)
      modifies ledger
      ensures
        var o := if failure.None? then Exceeded else Failed(failure.value);
        && ledger.errors == old(ledger.errors) + SettledBy(s, inputCount, o).errors
        && ledger.degradations == old(ledger.degradations) + SettledBy(s, inputCount, o).degradations
    {
      if failure.Some? {
        ledger.errors := ledger.errors + [StageError(s.Label(), failure.value)];
      }
      var reason := if failure.Some? then Failure else Timeout;
      ledger.degradations := ledger.degradations + [Degradation(s.Label(), reason, 0, inputCount)];
    }

    /** Retry, harvest or recover: the stage settles as Live defines and never yields null. */
    method RunStageSafe(env: Env, s: Stage, input: seq<Candidate>, ledger: Ledger) returns (r: StageReturn)
      modifies ledger, this`savesIssued, this`pendingSaves
      ensures r != Null
      ensures r.Threw? <==> env.recoveryThrows(s) && !LastOutcome(env, s, input).Resolved?
      ensures r.Done? ==> r.result == Live(env, s, input).result
      ensures r.Done? ==> ledger.errors == old(ledger.errors) + Live(env, s, input).errors
      ensures r.Done? ==> ledger.degradations == old(ledger.degradations) + Live(env, s, input).degradations
      ensures Grows(old(Now()), Now(),
                    HarvestSaves(env, intraCheckpoints, s, input), StageStrays(env, intraCheckpoints, s, input))
      ensures old(savesIssued) <= savesIssued && Own(savesIssued[|old(savesIssued)|..]) ==
        var o := LastOutcome(env, s, input);
        if intraCheckpoints && o.Resolved? then [(s.Label(), o.result)] else []
    {
      StageSavesInside(env, intraCheckpoints, s, input);
      hide Decider, SettledBy, Grows, HarvestSaves, StageStrays, OwnCall, StrayCalls, Live, LastOutcome;
      FirstTry(env, intraCheckpoints, s, input);
      GrowsNot(Now());
      var attempt := 1;
      while attempt <= MAX_ATTEMPTS
        invariant 1 <= attempt <= MAX_ATTEMPTS && Decider(env, s, input, 1) == Decider(env, s, input, attempt)
        invariant ledger.errors == old(ledger.errors) && ledger.degradations == old(ledger.degradations)
        invariant Grows(old(Now()), Now(), [], StrayCalls(env, intraCheckpoints, s, input, attempt - 1))
      {
        var outcome := env.attempt(s, input, attempt);
        TryDecides(env, intraCheckpoints, s, input, attempt);
        SettledLists(s, |input|, outcome);
        SaveFromInside(env, s, input, attempt, old(Now()));
        if outcome.Resolved? {
          Harvest(s, outcome.result, outcome.timedOut, |input|, ledger);
          SavesBetween(old(Now()), Now(), HarvestSaves(env, intraCheckpoints, s, input),
                       StageStrays(env, intraCheckpoints, s, input));
          return Done(outcome.result);
        }
        if outcome.Exceeded? || !outcome.isTransient || attempt >= MAX_ATTEMPTS || env.signalAt(s, attempt) {
          Recover(s, if outcome.Exceeded? then None else Some(outcome.isTransient), |input|, ledger);
          SavesBetween(old(Now()), Now(), HarvestSaves(env, intraCheckpoints, s, input),
                       StageStrays(env, intraCheckpoints, s, input));
          if env.recoveryThrows(s) {
            return Threw;
          }
          return Done(EMPTY);
        }
        attempt := attempt + 1;
      }
      assert false;
      return Null;
    }

    // The wrapper around one try: it saves when the stage resolves in time, and owes the save when it does not.
    method SaveFromInside(env: Env, s: Stage, input: seq<Candidate>, k: nat, ghost start: Mark)
      requires k > 0 && Grows(start, Now(), [], StrayCalls(env, intraCheckpoints, s, input, k - 1))
      modifies this`savesIssued, this`pendingSaves
      ensures Grows(start, Now(), OwnCall(env, intraCheckpoints, s, input, k),
                    StrayCalls(env, intraCheckpoints, s, input, k))
    {
      hide Grows;
      ghost var strays := StrayCalls(env, intraCheckpoints, s, input, k - 1);
      IssueLateSaves();
      GrowsIdly(start, old(Now()), Now(), [], strays);
      var outcome, stray := env.attempt(s, input, k), env.stray(s, input, k);
      assert strays + multiset{} == strays;
      if !intraCheckpoints {
        return;
      }
      if outcome.Resolved? {
        GrowsBySave(start, Now(), (s.Label(), outcome.result), [], strays);
        assert [] + [(s.Label(), outcome.result)] == [(s.Label(), outcome.result)];
        savesIssued := savesIssued + [SaveCall(s.Label(), outcome.result, false)];
      } else if stray.Some? {
        GrowsByDebt(start, Now(), (s.Label(), stray.value), [], strays);
        pendingSaves := pendingSaves + multiset{(s.Label(), stray.value)};
      }
    }

    /** A stage from its checkpoint or live; either way with its lock on record. */
    method RunStageWithCheckpoint(env: Env, resume: Resume, s: Stage, input: seq<Candidate>, ledger: Ledger,
                                  runId: string)
      returns (r: StageReturn)
      requires hasLock ==> HeartbeatKey(runId, s.Label()) in stageLocks
      modifies ledger, this`savesIssued, this`pendingSaves
      ensures r != Null
      ensures r.Threw? <==> env.recoveryThrows(s) && !Replays(resume, s) && !LastOutcome(env, s, input).Resolved?
      ensures r.Done? ==> r.result == StageFlow(env, resume, s, input).result
      ensures r.Done? ==> ledger.errors == old(ledger.errors) + StageFlow(env, resume, s, input).errors
      ensures r.Done? ==>
                ledger.degradations == old(ledger.degradations) + StageFlow(env, resume, s, input).degradations
      ensures Grows(old(Now()), Now(), StageSaves(env, intraCheckpoints, resume, s, input),
                    StrayedBy(env, intraCheckpoints, resume, s, input))
      ensures old(savesIssued) <= savesIssued && Own(savesIssued[|old(savesIssued)|..]) ==
        if Replays(resume, s) then []
        else
          var o := LastOutcome(env, s, input);
          (if intraCheckpoints && o.Resolved? then [(s.Label(), o.result)] else [])
          + (if r.Done? then [(s.Label(), r.result)] else [])
    {
      hide Grows, HarvestSaves, StageStrays, Live, LastOutcome;
      GrowsNot(Now());
      if resume.index > s.Index() && s.Label() in resume.results {
        var saved := resume.results[s.Label()];
        return Done(StageResult(saved.passed, saved.filtered, []));
      }
      StageSavesInside(env, intraCheckpoints, s, input);
      r := RunStageSafe(env, s, input, ledger);
      ghost var inside := HarvestSaves(env, intraCheckpoints, s, input);
      if r.Done? {
        GrowsBySave(old(Now()), Now(), (s.Label(), r.result), inside, StageStrays(env, intraCheckpoints, s, input));
        savesIssued := savesIssued + [SaveCall(s.Label(), r.result, false)];
      } else {
        assert inside + [] == inside;
      }
      SavesBetween(old(Now()), Now(), StageSaves(env, intraCheckpoints, resume, s, input),
                   StrayedBy(env, intraCheckpoints, resume, s, input));
    }

    // Up to the stage function: the lock acquired, its heartbeat running.
    method EnterStage(env: Env, stage: string, tenant: string, runId: string, controller: nat,
                      ghost start: set<Claim>, ghost from: Mark,
                      ghost own: seq<SaveArg>, ghost strays: multiset<SaveArg>)
      returns (ok: bool)
      requires Accounted(View(), start, tenant, runId) && stageLocks == map[] && ':' !in stage
      requires Grows(from, Now(), own, strays)
      modifies this
      ensures Accounted(View(), start, tenant, runId) && Grows(from, Now(), own, strays)
      ensures ok == (!hasLock || env.grant(stage).Some?)
      ensures stageLocks.Keys <= {HeartbeatKey(runId, stage)} && (!hasLock ==> stageLocks == map[])
      ensures ok && hasLock ==>
                HeartbeatKey(runId, stage) in stageLocks && RanUnderLock(env, granted, tenant, runId, stage)
      ensures !ok ==> stageLocks == map[]
      ensures old(granted) <= granted
    {
      hide Accounted, Acquire, Grows, RanUnderLock;
      LocksAfterAccounts(env, hasLock, View(), start, tenant, runId, stage, controller);
      ghost var held := LocksAfter(env, hasLock, View(), tenant, runId, stage, controller);
      ok := AcquireStageLock(env, tenant, runId, stage, controller);
      SameLocksAccounts(held, View(), start, tenant, runId);
      GrowsIdly(from, old(Now()), Now(), own, strays);
      if !ok {
        return;
      }
      label Locked:
      Await();
      GrowsIdly(from, old@Locked(Now()), Now(), own, strays);
      SameLocksAccounts(held, View(), start, tenant, runId);
    }

    // And after it: the lock given back, if it is still there.
    method LeaveStage(stage: string, tenant: string, runId: string,
                      ghost start: set<Claim>, ghost from: Mark,
                      ghost own: seq<SaveArg>, ghost strays: multiset<SaveArg>)
      requires Accounted(View(), start, tenant, runId) && Grows(from, Now(), own, strays) && ':' !in stage
      requires stageLocks.Keys <= {HeartbeatKey(runId, stage)} && (!hasLock ==> stageLocks == map[])
      modifies this
      ensures Accounted(View(), start, tenant, runId) && Grows(from, Now(), own, strays) && stageLocks == map[]
      ensures granted == old(granted)
    {
      hide Accounted, Grows, Release;
      ReleaseAccounts(View(), start, tenant, runId, stage);
      ReleasedLocks(View(), hasLock, tenant, runId, stage);
      ghost var released := if hasLock then Release(View(), tenant, runId, stage) else View();
      ReleaseStageLock(tenant, runId, stage);
      SameLocksAccounts(released, View(), start, tenant, runId);
      GrowsIdly(from, old(Now()), Now(), own, strays);
    }

    // A stage between acquiring and releasing its lock, then the abort check.
    method RunLockedStage(env: Env, resume: Resume, s: Stage, input: seq<Candidate>, ledger: Ledger,
                          tenant: string, runId: string, controller: nat, ghost start: set<Claim>, ghost from: Mark,
                          ghost own: seq<SaveArg>, ghost strays: multiset<SaveArg>)
      returns (r: StageReturn)
      requires Accounted(View(), start, tenant, runId) && stageLocks == map[]
      requires Grows(from, Now(), own, strays)
      modifies this, ledger
      ensures Accounted(View(), start, tenant, runId)
      ensures r != Null
      ensures r.Done? <==> StageProceeds(env, hasLock, resume, s, input)
      ensures r.Done? || !hasLock ==> stageLocks == map[]
      ensures r.Done? ==> r.result == StageFlow(env, resume, s, input).result
      ensures r.Done? ==> ledger.errors == old(ledger.errors) + StageFlow(env, resume, s, input).errors
      ensures r.Done? ==>
                ledger.degradations == old(ledger.degradations) + StageFlow(env, resume, s, input).degradations
      ensures r.Done? ==> Grows(from, Now(), own + StageSaves(env, intraCheckpoints, resume, s, input),
                                strays + StrayedBy(env, intraCheckpoints, resume, s, input))
      ensures Within(from, Now(), own + StageSaves(env, intraCheckpoints, resume, s, input),
                     strays + StrayedBy(env, intraCheckpoints, resume, s, input))
      ensures old(granted) <= granted && (r.Done? && hasLock ==> RanUnderLock(env, granted, tenant, runId, s.Label()))
    {
      hide Accounted, StageFlow, StageSaves, StrayedBy, Grows, Within, RanUnderLock, Replays, LastOutcome;
      ghost var own' := own + StageSaves(env, intraCheckpoints, resume, s, input);
      ghost var strays' := strays + StrayedBy(env, intraCheckpoints, resume, s, input);
      LabelsAreColonFree(s);
      var ok := EnterStage(env, s.Label(), tenant, runId, controller, start, from, own, strays);
      if !ok {
        GrowsWithin(from, Now(), own, strays, own', strays');
        return Threw;
      }
      r := RunHeldStage(env, resume, s, input, ledger, tenant, runId, start, from, own, strays);
      GrowsWithin(from, Now(), own', strays', own', strays');
      if s != Trademark && env.abortedAfter(s) {
        return Threw;
      }
    }

    // The stage itself, its lock on record, which is given back unless the stage threw.
    method RunHeldStage(env: Env, resume: Resume, s: Stage, input: seq<Candidate>, ledger: Ledger,
                        tenant: string, runId: string, ghost start: set<Claim>, ghost from: Mark,
                        ghost own: seq<SaveArg>, ghost strays: multiset<SaveArg>)
      returns (r: StageReturn)
      requires Accounted(View(), start, tenant, runId) && Grows(from, Now(), own, strays) && ':' !in s.Label()
      requires stageLocks.Keys == if hasLock then {HeartbeatKey(runId, s.Label())} else {}
      modifies this, ledger
      ensures Accounted(View(), start, tenant, runId) && granted == old(granted)
      ensures r != Null
      ensures r.Threw? <==> env.recoveryThrows(s) && !Replays(resume, s) && !LastOutcome(env, s, input).Resolved?
      ensures r.Done? || !hasLock ==> stageLocks == map[]
      ensures r.Done? ==> r.result == StageFlow(env, resume, s, input).result
      ensures r.Done? ==> ledger.errors == old(ledger.errors) + StageFlow(env, resume, s, input).errors
      ensures r.Done? ==>
                ledger.degradations == old(ledger.degradations) + StageFlow(env, resume, s, input).degradations
      ensures Grows(from, Now(), own + StageSaves(env, intraCheckpoints, resume, s, input),
                    strays + StrayedBy(env, intraCheckpoints, resume, s, input))
    {
      hide Accounted, StageFlow, StageSaves, StrayedBy, Grows, Replays, LastOutcome, Own;
      r := RunStageWithCheckpoint(env, resume, s, input, ledger, runId);
      SameLocksAccounts(old(View()), View(), start, tenant, runId);
      GrowsOn(from, old(Now()), Now(), own, strays, StageSaves(env, intraCheckpoints, resume, s, input),
              StrayedBy(env, intraCheckpoints, resume, s, input));
      if r.Done? {
        LeaveStage(s.Label(), tenant, runId, start, from, own + StageSaves(env, intraCheckpoints, resume, s, input),
                   strays + StrayedBy(env, intraCheckpoints, resume, s, input));
      }
    }

    // Stage 1: replayed, or run under its lock and saved.
    method RunGeneration(env: Env, resume: Resume, tenant: string, runId: string, controller: nat)
      returns (locked: bool, gen: Option<StageResult>)
      requires stageLocks == map[] && heartbeatTimers == {}
      modifies this
      ensures Accounted(View(), old(granted), tenant, runId)
      ensures stageLocks == map[]
      ensures locked <==> GenerationLocked(env, hasLock, resume)
      ensures gen == if locked then Generation(env, resume) else None
      ensures Grows(old(Now()), Now(), GenerationSaves(env, hasLock, resume), multiset{})
      ensures old(savesIssued) <= savesIssued && Own(savesIssued[|old(savesIssued)|..]) ==
        if locked && env.generate.Some? && !ReplaysGeneration(resume)
        then [(GENERATION_STAGE, env.generate.value)] else []
      ensures old(granted) <= granted
      ensures locked && hasLock && !ReplaysGeneration(resume) ==>
                RanUnderLock(env, granted, tenant, runId, GENERATION_LABEL)
    {
      hide Accounted, Grows, RanUnderLock;
      NothingGrantedYet(View(), tenant, runId);
      GrowsNot(Now());
      if resume.index > 0 && GENERATION_STAGE in resume.results {
        var saved := resume.results[GENERATION_STAGE];
        return true, Some(StageResult(saved.passed, saved.filtered, []));
      }
      locked := RunLiveGeneration(env, tenant, runId, controller);
      gen := if locked then env.generate else None;
      if gen.Some? {
        GrowsBySave(old(Now()), Now(), (GENERATION_STAGE, gen.value), [], multiset{});
        assert [] + [(GENERATION_STAGE, gen.value)] == [(GENERATION_STAGE, gen.value)];
        savesIssued := savesIssued + [SaveCall(GENERATION_STAGE, gen.value, false)];
      }
      SavesBetween(old(Now()), Now(), GenerationSaves(env, hasLock, resume), multiset{});
    }

    method RunLiveGeneration(env: Env, tenant: string, runId: string, controller: nat) returns (locked: bool)
      requires stageLocks == map[] && Accounted(View(), granted, tenant, runId)
      modifies this
      ensures Accounted(View(), old(granted), tenant, runId) && stageLocks == map[]
      ensures locked <==> !hasLock || env.grant(GENERATION_LABEL).Some?
      ensures Grows(old(Now()), Now(), [], multiset{})
      ensures old(granted) <= granted
      ensures locked && hasLock ==> RanUnderLock(env, granted, tenant, runId, GENERATION_LABEL)
    {
      hide Accounted, Grows, RanUnderLock;
      assert ':' !in GENERATION_LABEL;
      GrowsNot(Now());
      locked := EnterStage(env, GENERATION_LABEL, tenant, runId, controller, old(granted), old(Now()), [], multiset{});
      if !locked {
        return;
      }
      if env.generate.None? {
        // Released in the handler and again on the way out.
        LeaveStage(GENERATION_LABEL, tenant, runId, old(granted), old(Now()), [], multiset{});
      }
      LeaveStage(GENERATION_LABEL, tenant, runId, old(granted), old(Now()), [], multiset{});
    }

    // Stages 2 to 5; None if one of them stopped the run.
    method RunStages(env: Env, resume: Resume, gen: StageResult, ledger: Ledger, tenant: string, runId: string,
                     controller: nat, ghost start: set<Claim>, ghost from: Mark, ghost own: seq<SaveArg>)
      returns (f: Option<(StageResult, StageResult, StageResult, StageResult)>)
      requires Accounted(View(), start, tenant, runId) && stageLocks == map[]
      requires Grows(from, Now(), own, multiset{})
      modifies this, ledger
      ensures Accounted(View(), start, tenant, runId)
      ensures !hasLock ==> stageLocks == map[]
      ensures f.Some? <==> StagesProceed(env, hasLock, resume, RunFlow(env, resume, gen))
      ensures
        var flow := RunFlow(env, resume, gen);
        f.Some? ==>
          && flow.gen == gen
          && f.value == (flow.dns.result, flow.rdap.result, flow.scoring.result, flow.trademark.result)
          && ledger.errors == old(ledger.errors) + flow.dns.errors + flow.rdap.errors
                              + flow.scoring.errors + flow.trademark.errors
          && ledger.degradations == old(ledger.degradations) + flow.dns.degradations + flow.rdap.degradations
                                    + flow.scoring.degradations + flow.trademark.degradations
      ensures
        var flow := RunFlow(env, resume, gen);
        var saves := own + FlowSaves(env, intraCheckpoints, resume, flow);
        var strays := FlowStrays(env, intraCheckpoints, resume, flow);
        Within(from, Now(), saves, strays) && (f.Some? ==> Grows(from, Now(), saves, strays))
      ensures old(granted) <= granted
      ensures f.Some? && hasLock ==> forall s: Stage :: RanUnderLock(env, granted, tenant, runId, s.Label())
    {
      hide StageFlow, StageProceeds, Accounted, StageSaves, StrayedBy, FlowSaves, FlowStrays, Grows, Within;
      hide RanUnderLock;
      ghost var intra, flow := intraCheckpoints, RunFlow(env, resume, gen);
      ghost var o1 := own + StageSaves(env, intra, resume, Dns, flow.gen.passed);
      ghost var o2 := o1 + StageSaves(env, intra, resume, Rdap, flow.dns.result.passed);
      ghost var o3 := o2 + StageSaves(env, intra, resume, Scoring, Known(flow.rdap.result.passed));
      ghost var s1 := multiset{} + StrayedBy(env, intra, resume, Dns, flow.gen.passed);
      ghost var s2 := s1 + StrayedBy(env, intra, resume, Rdap, flow.dns.result.passed);
      ghost var s3 := s2 + StrayedBy(env, intra, resume, Scoring, Known(flow.rdap.result.passed));
      ghost var saves, strays := own + FlowSaves(env, intra, resume, flow), FlowStrays(env, intra, resume, flow);
      FlowSavesGrow(env, intra, resume, flow, own);
      var dns := RunLockedStage(env, resume, Dns, gen.passed, ledger, tenant, runId, controller, start,
                                from, own, multiset{});
      if dns.Threw? {
        WithinMore(from, Now(), o1, s1, saves, strays);
        return None;
      }
      ghost var g1 := granted;
      var rdap := RunLockedStage(env, resume, Rdap, dns.result.passed, ledger, tenant, runId, controller, start,
                                 from, o1, s1);
      if rdap.Threw? {
        WithinMore(from, Now(), o2, s2, saves, strays);
        return None;
      }
      ghost var g2 := granted;
      // Unknown candidates go no further; they are not added to the filtered list.
      var known := Known(rdap.result.passed);
      var scoring := RunLockedStage(env, resume, Scoring, known, ledger, tenant, runId, controller, start,
                                    from, o2, s2);
      if scoring.Threw? {
        WithinMore(from, Now(), o3, s3, saves, strays);
        return None;
      }
      ghost var g3 := granted;
      var trademark := RunLockedStage(env, resume, Trademark, scoring.result.passed, ledger, tenant, runId, controller,
                                      start, from, o3, s3);
      if trademark.Threw? {
        return None;
      }
      if hasLock {
        AllUnderLock(env, g1, g2, g3, granted, tenant, runId);
      }
      return Some((dns.result, rdap.result, scoring.result, trademark.result));
    }

    // Stages 2 to 5 and the result assembled.
    method FinishRun(env: Env, resume: Resume, gen: StageResult, tenant: string, runId: string, controller: nat,
                     ghost start: set<Claim>)
      returns (result: Option<RunResult>)
      requires Accounted(View(), start, tenant, runId) && stageLocks == map[]
      modifies this
      ensures Accounted(View(), start, tenant, runId)
      ensures !hasLock ==> stageLocks == map[]
      ensures result.Some? <==> StagesProceed(env, hasLock, resume, RunFlow(env, resume, gen))
      ensures result.Some? ==> result.value == Assemble(RunFlow(env, resume, gen))
      ensures
        var flow := RunFlow(env, resume, gen);
        var own := FlowSaves(env, intraCheckpoints, resume, flow);
        var strays := FlowStrays(env, intraCheckpoints, resume, flow);
        Within(old(Now()), Now(), own, strays) && (result.Some? ==> Grows(old(Now()), Now(), own, strays))
      ensures old(granted) <= granted
      ensures result.Some? && hasLock ==> forall s: Stage :: RanUnderLock(env, granted, tenant, runId, s.Label())
    {
      hide Accounted, FlowSaves, FlowStrays, RunFlow, StagesProceed, Grows, Within, RanUnderLock;
      var ledger := new Ledger();
      ghost var own := FlowSaves(env, intraCheckpoints, resume, RunFlow(env, resume, gen));
      GrowsNot(Now());
      var stages := RunStages(env, resume, gen, ledger, tenant, runId, controller, start, Now(), []);
      assert [] + own == own;
      if stages.None? {
        return None;
      }
      var (dns, rdap, scoring, trademark) := stages.value;
      var scored := scoring.filtered + trademark.passed + trademark.filtered;
      var all := gen.filtered + dns.filtered + rdap.filtered + scoring.filtered + trademark.filtered + trademark.passed;
      return Some(RunResult(trademark.passed, scored, all, ledger.errors,
                            |ledger.errors| > 0 || |ledger.degradations| > 0, ledger.degradations));
    }

    // The five stages from a resume point on.
    method RunFrom(env: Env, resume: Resume, tenant: string, runId: string, controller: nat)
      returns (out: RunOutcome)
      requires stageLocks == map[] && heartbeatTimers == {} && !env.abortedAtStart
      modifies this
      ensures Accounted(View(), old(granted), tenant, runId)
      ensures !hasLock ==> stageLocks == map[]
      ensures out.Completed? <==> Completes(env, hasLock, resume)
      ensures out.Completed? ==> out.result == Assemble(RunFlow(env, resume, Generation(env, resume).value))
      ensures out.GenerationFailed? <==>
                GenerationLocked(env, hasLock, resume) && Generation(env, resume).None?
      ensures RanWithin(env, resume, old(Now()), out.Completed?)
      ensures old(savesIssued) <= savesIssued
      ensures SavesItsGeneration(env, hasLock, resume, Own(savesIssued[|old(savesIssued)|..]))
      ensures out.Completed? && hasLock ==> EveryStageLocked(env, resume, granted, tenant, runId)
    {
      hide Accounted, FlowSaves, FlowStrays, RunFlow, StagesProceed, GenerationLocked, Generation, Grows, Within;
      hide Assemble, RanUnderLock, EveryStageLocked, SavesItsGeneration, GenerationSaves, OwnSaves, StraySaves, Own;
      OwnSavesSplit(env, hasLock, intraCheckpoints, resume);
      NothingGrantedYet(View(), tenant, runId);
      ghost var saves := OwnSaves(env, hasLock, intraCheckpoints, resume);
      ghost var strays := StraySaves(env, intraCheckpoints, resume);
      GrowsNot(Now());
      GrowsWithin(Now(), Now(), [], multiset{}, saves, strays);
      var locked, generated := RunGeneration(env, resume, tenant, runId, controller);
      ghost var own := GenerationSaves(env, hasLock, resume);
      GrowsWithin(old(Now()), Now(), own, multiset{}, saves, strays);
      SavesBetween(old(Now()), Now(), own, multiset{});
      GenerationFirst(env, hasLock, resume, Own(savesIssued[|old(savesIssued)|..]));
      if !locked {
        return Aborted;
      }
      if generated.None? {
        return GenerationFailed;
      }
      if env.abortedAfterGeneration {
        return Aborted;
      }
      var gen := generated.value;
      ghost var mid, rest := Now(), FlowSaves(env, intraCheckpoints, resume, RunFlow(env, resume, gen));
      var result := FinishRun(env, resume, gen, tenant, runId, controller, old(granted));
      GrowsThenWithin(old(Now()), mid, Now(), own, rest, strays, result.Some?);
      GenerationFirst(env, hasLock, resume, Own(savesIssued[|old(savesIssued)|..]));
      if result.None? {
        return Aborted;
      }
      if hasLock {
        LockedThroughout(env, resume, mid.book.granted, granted, tenant, runId);
      }
      return Completed(result.value);
    }

    /** From the first abort check on: the checkpoint is loaded, and the stages run from where it says. */
    method RunInternal(env: Env, store: DbCheckpointStore, tenant: string, runId: string, controller: nat, now: nat)
      returns (out: RunOutcome)
      requires stageLocks == map[] && heartbeatTimers == {} && store.Valid()
      modifies this
      ensures Accounted(View(), old(granted), tenant, runId)
      ensures !hasLock ==> stageLocks == map[]
      ensures
        var resume := ResumeFrom(Load(store.rows, runId, now));
        var loads := env.loads && !LoadThrows(store.rows, runId, now);
        && (out.Completed? <==> loads && Completes(env, hasLock, resume))
        && (out.Completed? ==> out.result == Assemble(RunFlow(env, resume, Generation(env, resume).value)))
        && (out.GenerationFailed? <==>
              loads && !env.abortedAtStart && GenerationLocked(env, hasLock, resume) && Generation(env, resume).None?)
        && RanWithin(env, resume, old(Now()), out.Completed?)
        && (out.Completed? && hasLock ==> EveryStageLocked(env, resume, granted, tenant, runId))
        && old(savesIssued) <= savesIssued
        && (loads && !env.abortedAtStart ==>
              SavesItsGeneration(env, hasLock, resume, Own(savesIssued[|old(savesIssued)|..])))
    {
      hide Accounted, RunFlow, StagesProceed, GenerationLocked, Generation, Grows, Within, OwnSaves, StraySaves;
      hide Load, LoadThrows, Assemble;
      ghost var resume := ResumeFrom(Load(store.rows, runId, now));
      ghost var saves := OwnSaves(env, hasLock, intraCheckpoints, resume);
      ghost var strays := StraySaves(env, intraCheckpoints, resume);
      NothingGrantedYet(View(), tenant, runId);
      GrowsNot(Now());
      GrowsWithin(Now(), Now(), [], multiset{}, saves, strays);
      if env.abortedAtStart {
        return Aborted;
      }
      Await();
      SavesBetween(old(Now()), Now(), [], multiset{});
      GrowsWithin(old(Now()), Now(), [], multiset{}, saves, strays);
      NothingGrantedYet(View(), tenant, runId);
      var ok, cp := store.LoadRun(runId, now);
      if !env.loads || !ok {
        return Aborted;
      }
      label Loaded:
      out := RunFrom(env, ResumeFrom(cp), tenant, runId, controller);
      OwnSlices(old(savesIssued), old@Loaded(savesIssued), savesIssued);
      IdlyWithin(old(Now()), old@Loaded(Now()), Now(), saves, strays, out.Completed?);
    }

    // Saves are not awaited: any of those issued since the run began may land in the store now.
    method LandSaves(store: DbCheckpointStore, runId: string, since: nat) returns (landed: seq<Save>)
      requires store.Valid() && since <= |savesIssued|
      modifies store
      ensures store.Valid() && store.rows == Landed(old(store.rows), runId, landed)
      ensures forall sv <- landed :: IsOneOf(sv, savesIssued[since..])
    {
      hide IsOneOf, Landed;
      landed := [];
      NothingLanded(store.rows, runId);
      var calls := savesIssued[since..];
      var choices: seq<(nat, nat)> := *;
      for i := 0 to |choices|
        invariant store.Valid() && store.rows == Landed(old(store.rows), runId, landed)
        invariant forall sv <- landed :: IsOneOf(sv, calls)
      {
        var (k, at) := choices[i];
        if k < |calls| {
          var call := calls[k];
          var sv := Save(call.stage, call.result.passed, call.result.filtered, at);
          CallIsOneOf(calls, k, at);
          LandedSnoc(old(store.rows), runId, landed, sv);
          store.Save(runId, sv.stage, sv.passed, sv.filtered, at);
          landed := landed + [sv];
        }
      }
    }

    // The run's rows are deleted, between saves that land before and after.
    method ClearCheckpoints(env: Env, store: DbCheckpointStore, runId: string, since: nat,
                            ghost from: Mark, ghost resume: Resume, ghost all: bool)
      returns (early: seq<Save>, late: seq<Save>)
      requires store.Valid() && since == |from.saves|
      requires RanWithin(env, resume, from, all)
      modifies store
      modifies this`heartbeatFailures, this`aborted, this`log, this`savesIssued, this`pendingSaves
      ensures RanWithin(env, resume, from, all) && SameLocks(old(View()), View())
      ensures OnlyLateCounters(old(View()), old(log)) ==> OnlyLateCounters(View(), log)
      ensures store.Valid() && store.rows == RowsAfter(env, old(store.rows), runId, early, late)
      ensures from.saves <= old(savesIssued) <= savesIssued
      ensures forall sv <- early + late :: IsOneOf(sv, savesIssued[since..])
    {
      hide Grows, Within, Landed, IsOneOf, OwnSaves, StraySaves, OnlyLateCounters;
      ghost var own := OwnSaves(env, hasLock, intraCheckpoints, resume);
      ghost var strays := StraySaves(env, intraCheckpoints, resume);
      SavesSince(from, Now(), own, strays);
      early := LandSaves(store, runId, since);
      if env.clears {
        store.Clear(runId);
      }
      Await();
      SavesPile(old(Now()), Now(), [], multiset{});
      WithinIdly(from, old(Now()), Now(), own, strays, all);
      late := LandSaves(store, runId, since);
      SavesStay(from.saves, old(savesIssued), savesIssued, early);
    }

    // What a run has saved so far: within its saves, and all of them once it is complete.
    ghost predicate RanWithin(env: Env, resume: Resume, from: Mark, all: bool)
      reads this
    {
      var own := OwnSaves(env, hasLock, intraCheckpoints, resume);
      var strays := StraySaves(env, intraCheckpoints, resume);
      Within(from, Now(), own, strays) && (all ==> Grows(from, Now(), own, strays))
    }

    /**
      One run, start to finish.  With no other run active and a colon-free run id, every way out
      leaves the lock and timer maps empty and every lock granted to the run unlocked with its fence.
      What failure counters remain are those of heartbeats answered after the sweep.

      `early` and `late` are the run's saves that landed before and after its final clear.  Its rows are
      gone in the end exactly when nothing landed late and the clear succeeded (or nothing was there to
      clear), for a rejected clear is swallowed; whatever stays is fit to resume from.
     */
    method Run(env: Env, store: DbCheckpointStore, tenant: string, runId: string, controller: nat, now: nat)
      returns (out: RunOutcome, early: seq<Save>, late: seq<Save>)
      requires stageLocks == map[] && heartbeatTimers == {} && store.Valid()
      modifies this, store
      ensures stageLocks == map[] && heartbeatTimers == {}
      ensures heartbeatFailures.Keys == AnsweredKeys(SinceSweep(log))
      ensures hasLock && ':' !in runId ==> granted - old(granted) <= unlocked
      ensures out.Completed? <==> env.loads && !LoadThrows(old(store.rows), runId, now)
                                  && Completes(env, hasLock, ResumeFrom(Load(old(store.rows), runId, now)))
      ensures out.Completed? ==>
                var resume := ResumeFrom(Load(old(store.rows), runId, now));
                out.result == Assemble(RunFlow(env, resume, Generation(env, resume).value))
      ensures RanWithin(env, ResumeFrom(Load(old(store.rows), runId, now)), old(Now()), out.Completed?)
      ensures out.Completed? && hasLock ==>
                EveryStageLocked(env, ResumeFrom(Load(old(store.rows), runId, now)), granted, tenant, runId)
      ensures store.Valid() && store.rows == RowsAfter(env, old(store.rows), runId, early, late)
      ensures old(savesIssued) <= savesIssued
      ensures !env.abortedAtStart && env.loads && !LoadThrows(old(store.rows), runId, now) ==>
                SavesItsGeneration(env, hasLock, ResumeFrom(Load(old(store.rows), runId, now)),
                                   Own(savesIssued[|old(savesIssued)|..]))
      ensures forall sv <- early + late :: IsOneOf(sv, savesIssued[|old(savesIssued)|..])
      ensures OfRun(store.rows, runId) == [] <==>
                late == [] && (env.clears || (early == [] && OfRun(old(store.rows), runId) == []))
      ensures old(OwesStageSaves(pendingSaves)) ==> OwesStageSaves(pendingSaves)
      ensures old(OwesStageSaves(pendingSaves)) && Faithful(env, old(store.rows), runId) ==>
                Faithful(env, store.rows, runId)
    {
      hide Accounted, OwnSaves, StraySaves, Completes, RunFlow, Grows, Within, Faithful, Load, LoadThrows;
      hide RowsAfter, Landed, IsOneOf, OwesStageSaves, OfRun, Generation, Assemble, Cleanup, StopAll;
      hide Own, SavesItsGeneration, EveryStageLocked;
      var since := |savesIssued|;
      ghost var resume := ResumeFrom(Load(store.rows, runId, now));
      ghost var saves := OwnSaves(env, hasLock, intraCheckpoints, resume);
      ghost var strays := StraySaves(env, intraCheckpoints, resume);
      out := RunInternal(env, store, tenant, runId, controller, now);
      label Ran:
      CleanupAllStageLocks(tenant, runId);
      SavesPile(old@Ran(Now()), Now(), [], multiset{});
      SweptClean(old@Ran(View()), View(), hasLock, old(granted), tenant, runId);
      WithinIdly(old(Now()), old@Ran(Now()), Now(), saves, strays, out.Completed?);
      early, late := ClearCheckpoints(env, store, runId, since, old(Now()), resume, out.Completed?);
      MoreSavesKeepIt(env, hasLock, resume, old(savesIssued), old@Ran(savesIssued), savesIssued);
      LeftoverRows(env, old(store.rows), runId, early, late);
      LeftoversAreFaithful(env, hasLock, intraCheckpoints, resume, old(Now()), Now(), old(store.rows), runId,
                           early, late);
    }
  }

  // ---- What a run leaves in the store --------------------------------------------------------

  /** The save is one of these calls, at some time. */
  ghost predicate IsOneOf(sv: Save, calls: seq<SaveCall>) {
    exists c <- calls :: sv.stage == c.stage && sv.passed == c.result.passed && sv.filtered == c.result.filtered
  }

  lemma CallIsOneOf(calls: seq<SaveCall>, k: nat, at: nat)
    requires k < |calls|
    ensures IsOneOf(Save(calls[k].stage, calls[k].result.passed, calls[k].result.filtered, at), calls)
  {
  }

  lemma NothingLanded(rows: seq<Row>, runId: string)
    ensures Landed(rows, runId, []) == rows
  {
  }

  lemma SavesStay(m: seq<SaveCall>, n: seq<SaveCall>, o: seq<SaveCall>, landed: seq<Save>)
    requires m <= n <= o && forall sv <- landed :: IsOneOf(sv, n[|m|..])
    ensures forall sv <- landed :: IsOneOf(sv, o[|m|..])
  {
    forall sv | sv in landed ensures IsOneOf(sv, o[|m|..]) {
      var c :| c in n[|m|..] &&
               sv.stage == c.stage && sv.passed == c.result.passed && sv.filtered == c.result.filtered;
      assert n[|m|..] <= o[|m|..];
      assert c in o[|m|..];
    }
  }

  function RowsAfter(env: Env, rows: seq<Row>, runId: string, early: seq<Save>, late: seq<Save>): seq<Row> {
    var landed := Landed(rows, runId, early);
    Landed(if env.clears then Without(landed, runId) else landed, runId, late)
  }

  lemma LeftoverRows(env: Env, rows: seq<Row>, runId: string, early: seq<Save>, late: seq<Save>)
    requires Unique(rows)
    ensures OfRun(RowsAfter(env, rows, runId, early, late), runId) == [] <==>
      late == [] && (env.clears || (early == [] && OfRun(rows, runId) == []))
  {
    var landed := Landed(rows, runId, early);
    LandedIsUnique(rows, runId, early);
    LandedEmptyIff(rows, runId, early);
    WithoutKeepsUnique(landed, runId);
    LandedEmptyIff(if env.clears then Without(landed, runId) else landed, runId, late);
  }

  /** Tries that were given up owe saves under their stages' labels only. */
  ghost predicate OwesStageSaves(pending: multiset<SaveArg>) {
    forall call <- pending :: UnderStageLabel(call)
  }

  lemma LeftoversAreFaithful(env: Env, hasLock: bool, intra: bool, r: Resume, m: Mark, n: Mark, rows: seq<Row>,
                             runId: string, early: seq<Save>, late: seq<Save>)
    requires Within(m, n, OwnSaves(env, hasLock, intra, r), StraySaves(env, intra, r))
    requires m.saves <= n.saves && Unique(rows)
    requires forall sv <- early + late :: IsOneOf(sv, n.saves[|m.saves|..])
    ensures OwesStageSaves(m.pending) ==> OwesStageSaves(n.pending)
    ensures OwesStageSaves(m.pending) && Faithful(env, rows, runId) ==>
              Faithful(env, RowsAfter(env, rows, runId, early, late), runId)
  {
    hide OwnSaves, StraySaves, Within, Faithful, Landed, Without;
    SavesSince(m, n, OwnSaves(env, hasLock, intra, r), StraySaves(env, intra, r));
    if OwesStageSaves(m.pending) {
      StraysAreOwed(env, intra, r);
      if Faithful(env, rows, runId) {
        forall sv | sv in early + late ensures Issuable(env, sv) {
          var c :| c in n.saves[|m.saves|..] &&
                   sv.stage == c.stage && sv.passed == c.result.passed && sv.filtered == c.result.filtered;
          SavesAreIssuable(env, hasLock, intra, r, sv.at);
        }
        forall sv | sv in early || sv in late ensures Issuable(env, sv) {
          assert sv in early + late;
        }
        LandedIsUnique(rows, runId, early);
        LandedIsFaithful(env, rows, runId, early);
        ClearedIsFaithful(env, Landed(rows, runId, early), runId);
        LandedIsFaithful(env, if env.clears then Without(Landed(rows, runId, early), runId)
                              else Landed(rows, runId, early), runId, late);
      }
    }
  }

  /** Unless it replays it, a run that gets generation's result saves that first. */
  ghost predicate SavesItsGeneration(env: Env, hasLock: bool, r: Resume, own: seq<SaveArg>) {
    GenerationLocked(env, hasLock, r) && env.generate.Some? && !ReplaysGeneration(r) ==>
      own != [] && own[0] == (GENERATION_STAGE, env.generate.value)
  }

  lemma OwnSavesSplit(env: Env, hasLock: bool, intra: bool, r: Resume)
    ensures var gen, g := Generation(env, r), GenerationSaves(env, hasLock, r);
      && OwnSaves(env, hasLock, intra, r) ==
         g + (if gen.None? then [] else FlowSaves(env, intra, r, RunFlow(env, r, gen.value)))
      && g <= OwnSaves(env, hasLock, intra, r)
      && StraySaves(env, intra, r) ==
         (if gen.None? then multiset{} else FlowStrays(env, intra, r, RunFlow(env, r, gen.value)))
  {
  }

  lemma GenerationFirst(env: Env, hasLock: bool, r: Resume, own: seq<SaveArg>)
    requires GenerationSaves(env, hasLock, r) <= own
    ensures SavesItsGeneration(env, hasLock, r, own)
  {
  }

  lemma MoreSavesKeepIt(env: Env, hasLock: bool, r: Resume, a: seq<SaveCall>, b: seq<SaveCall>, c: seq<SaveCall>)
    requires a <= b <= c
    ensures SavesItsGeneration(env, hasLock, r, Own(b[|a|..])) ==> SavesItsGeneration(env, hasLock, r, Own(c[|a|..]))
  {
    OwnSlices(a, b, c);
  }

  lemma StageSavesInside(env: Env, intra: bool, s: Stage, input: seq<Candidate>)
    ensures var o := LastOutcome(env, s, input);
      HarvestSaves(env, intra, s, input) == if intra && o.Resolved? then [(s.Label(), o.result)] else []
  {
    hide Decider;
  }

  // ---- When a run completes ------------------------------------------------------------------

  /** The stage gets its lock, its recovery does not throw, and the check after it finds no abort. */
  ghost predicate StageProceeds(env: Env, hasLock: bool, r: Resume, s: Stage, input: seq<Candidate>) {
    && (hasLock ==> env.grant(s.Label()).Some?)
    && !(env.recoveryThrows(s) && !Replays(r, s) && !LastOutcome(env, s, input).Resolved?)
    && (s != Trademark ==> !env.abortedAfter(s))
  }

  ghost predicate StagesProceed(env: Env, hasLock: bool, r: Resume, f: Flow) {
    && StageProceeds(env, hasLock, r, Dns, f.gen.passed)
    && StageProceeds(env, hasLock, r, Rdap, f.dns.result.passed)
    && StageProceeds(env, hasLock, r, Scoring, Known(f.rdap.result.passed))
    && StageProceeds(env, hasLock, r, Trademark, f.scoring.result.passed)
  }

  ghost predicate GenerationLocked(env: Env, hasLock: bool, r: Resume) {
    ReplaysGeneration(r) || !hasLock || env.grant(GENERATION_LABEL).Some?
  }

  ghost predicate Completes(env: Env, hasLock: bool, r: Resume) {
    && !env.abortedAtStart && GenerationLocked(env, hasLock, r)
    && Generation(env, r).Some? && !env.abortedAfterGeneration
    && StagesProceed(env, hasLock, r, RunFlow(env, r, Generation(env, r).value))
  }

  /** Its lock was granted, with the fence the provider drew. */
  predicate RanUnderLock(env: Env, granted: set<Claim>, tenant: string, runId: string, stage: string) {
    env.grant(stage).Some? && Claim(LockKey(tenant, stage, runId), env.grant(stage).value) in granted
  }

  lemma AllUnderLock(env: Env, g1: set<Claim>, g2: set<Claim>, g3: set<Claim>, g4: set<Claim>,
                     tenant: string, runId: string)
    requires RanUnderLock(env, g1, tenant, runId, Dns.Label()) && RanUnderLock(env, g2, tenant, runId, Rdap.Label())
    requires RanUnderLock(env, g3, tenant, runId, Scoring.Label())
    requires RanUnderLock(env, g4, tenant, runId, Trademark.Label()) && g1 <= g2 <= g3 <= g4
    ensures forall s: Stage :: RanUnderLock(env, g4, tenant, runId, s.Label())
  {
    hide LockKey;
    forall s: Stage ensures RanUnderLock(env, g4, tenant, runId, s.Label()) {
      match s
      case Dns =>
      case Rdap =>
      case Scoring =>
      case Trademark =>
    }
  }

  predicate ReplaysGeneration(r: Resume) {
    r.index > 0 && GENERATION_STAGE in r.results
  }

  ghost predicate EveryStageLocked(env: Env, r: Resume, granted: set<Claim>, tenant: string, runId: string) {
    && (forall s: Stage :: RanUnderLock(env, granted, tenant, runId, s.Label()))
    && (ReplaysGeneration(r) || RanUnderLock(env, granted, tenant, runId, GENERATION_LABEL))
  }

  // If the stage's recovery throws, it does not come to that: the stage is replayed or resolves.
  predicate Recovers(env: Env, r: Resume, f: Flow, s: Stage) {
    env.recoveryThrows(s) ==> Replays(r, s) || OutcomeIn(env, f, s).Resolved?
  }

  lemma LockedThroughout(env: Env, r: Resume, g: set<Claim>, h: set<Claim>, tenant: string, runId: string)
    requires g <= h && forall s: Stage :: RanUnderLock(env, h, tenant, runId, s.Label())
    requires ReplaysGeneration(r) || RanUnderLock(env, g, tenant, runId, GENERATION_LABEL)
    ensures EveryStageLocked(env, r, h, tenant, runId)
  {
    hide LockKey;
  }

  /**
    A run completes exactly when no abort check finds its signal set, generation is there, replayed or
    yielded, every lock it asks for is granted, and no recovery of a stage it runs throws.
   */
  lemma CompletesIff(env: Env, hasLock: bool, r: Resume)
    ensures Completes(env, hasLock, r) <==>
      && !env.abortedAtStart && !env.abortedAfterGeneration
      && (forall s: Stage :: env.abortedAfter(s) ==> s == Trademark)
      && (ReplaysGeneration(r) ||
          (env.generate.Some? && (hasLock ==> env.grant(GENERATION_LABEL).Some?)))
      && (hasLock ==> forall s: Stage :: env.grant(s.Label()).Some?)
      && var f := RunFlow(env, r, Generation(env, r).value);
         forall s: Stage :: Recovers(env, r, f, s)
  {
    hide RunFlow, Recovers;
    if Generation(env, r).Some? {
      ProceedIff(env, hasLock, r, RunFlow(env, r, Generation(env, r).value));
      hide StagesProceed;
    }
  }

  lemma ProceedIff(env: Env, hasLock: bool, r: Resume, f: Flow)
    ensures StagesProceed(env, hasLock, r, f) <==>
      && (forall s: Stage :: env.abortedAfter(s) ==> s == Trademark)
      && (hasLock ==> forall s: Stage :: env.grant(s.Label()).Some?)
      && (forall s: Stage :: Recovers(env, r, f, s))
  {
    hide Recovers, StageProceeds;
    ProceedsIff(env, hasLock, r, f, Dns);
    ProceedsIff(env, hasLock, r, f, Rdap);
    ProceedsIff(env, hasLock, r, f, Scoring);
    ProceedsIff(env, hasLock, r, f, Trademark);
    EachStage(env, r, f);
  }

  lemma ProceedsIff(env: Env, hasLock: bool, r: Resume, f: Flow, s: Stage)
    ensures StageProceeds(env, hasLock, r, s, InputOf(f, s)) <==>
      && (env.abortedAfter(s) ==> s == Trademark) && (hasLock ==> env.grant(s.Label()).Some?)
      && Recovers(env, r, f, s)
  {
  }

  lemma EachStage(env: Env, r: Resume, f: Flow)
    ensures (forall s: Stage :: env.abortedAfter(s) ==> s == Trademark)
       <==> !env.abortedAfter(Dns) && !env.abortedAfter(Rdap) && !env.abortedAfter(Scoring)
    ensures (forall s: Stage :: env.grant(s.Label()).Some?)
       <==> env.grant(Dns.Label()).Some? && env.grant(Rdap.Label()).Some? && env.grant(Scoring.Label()).Some?
            && env.grant(Trademark.Label()).Some?
    ensures (forall s: Stage :: Recovers(env, r, f, s))
       <==> Recovers(env, r, f, Dns) && Recovers(env, r, f, Rdap) && Recovers(env, r, f, Scoring)
            && Recovers(env, r, f, Trademark)
  {
    hide Recovers;
    if Recovers(env, r, f, Dns) && Recovers(env, r, f, Rdap) && Recovers(env, r, f, Scoring)
       && Recovers(env, r, f, Trademark) {
      forall s: Stage ensures Recovers(env, r, f, s) {
        match s
        case Dns =>
        case Rdap =>
        case Scoring =>
        case Trademark =>
      }
    }
  }

  // ---- Locks around a stage ------------------------------------------------------------------

  function LocksAfter(env: Env, hasLock: bool, b: Book, tenant: string, runId: string, stage: string,
                      controller: nat): Book {
    if hasLock && env.grant(stage).Some?
    then Acquire(b, tenant, runId, stage, LockInfo(controller, env.grant(stage).value))
    else b
  }

  lemma LocksAfterAccounts(env: Env, hasLock: bool, b: Book, start: set<Claim>, tenant: string, runId: string,
                           stage: string, controller: nat)
    requires Accounted(b, start, tenant, runId) && ':' !in stage && b.locks == map[]
    ensures var v := LocksAfter(env, hasLock, b, tenant, runId, stage, controller);
      && Accounted(v, start, tenant, runId)
      && v.locks.Keys <= {HeartbeatKey(runId, stage)} && (!hasLock ==> v.locks == map[])
  {
    if hasLock && env.grant(stage).Some? {
      AcquireAccounts(b, start, tenant, runId, stage, LockInfo(controller, env.grant(stage).value));
    }
  }

  lemma ReleasedLocks(b: Book, hasLock: bool, tenant: string, runId: string, stage: string)
    requires b.locks.Keys <= {HeartbeatKey(runId, stage)} && (!hasLock ==> b.locks == map[])
    ensures (if hasLock then Release(b, tenant, runId, stage) else b).locks == map[]
  {
  }

  // ---- What a run saves ----------------------------------------------------------------------

  ghost function FlowSaves(env: Env, intra: bool, r: Resume, f: Flow): seq<SaveArg> {
    StageSaves(env, intra, r, Dns, f.gen.passed)
    + StageSaves(env, intra, r, Rdap, f.dns.result.passed)
    + StageSaves(env, intra, r, Scoring, Known(f.rdap.result.passed))
    + StageSaves(env, intra, r, Trademark, f.scoring.result.passed)
  }

  ghost function FlowStrays(env: Env, intra: bool, r: Resume, f: Flow): multiset<SaveArg> {
    StrayedBy(env, intra, r, Dns, f.gen.passed)
    + StrayedBy(env, intra, r, Rdap, f.dns.result.passed)
    + StrayedBy(env, intra, r, Scoring, Known(f.rdap.result.passed))
    + StrayedBy(env, intra, r, Trademark, f.scoring.result.passed)
  }

  // The saves stage by stage, on top of those already made.
  lemma FlowSavesGrow(env: Env, intra: bool, r: Resume, f: Flow, own: seq<SaveArg>)
    ensures
      var all := own + FlowSaves(env, intra, r, f);
      var o1 := own + StageSaves(env, intra, r, Dns, f.gen.passed);
      var o2 := o1 + StageSaves(env, intra, r, Rdap, f.dns.result.passed);
      var o3 := o2 + StageSaves(env, intra, r, Scoring, Known(f.rdap.result.passed));
      o1 <= all && o2 <= all && o3 <= all && o3 + StageSaves(env, intra, r, Trademark, f.scoring.result.passed) == all
    ensures
      var all := FlowStrays(env, intra, r, f);
      var s1 := multiset{} + StrayedBy(env, intra, r, Dns, f.gen.passed);
      var s2 := s1 + StrayedBy(env, intra, r, Rdap, f.dns.result.passed);
      var s3 := s2 + StrayedBy(env, intra, r, Scoring, Known(f.rdap.result.passed));
      s1 <= all && s2 <= all && s3 <= all && s3 + StrayedBy(env, intra, r, Trademark, f.scoring.result.passed) == all
  {
    hide StageSaves, StrayedBy;
  }

  ghost function GenerationSaves(env: Env, hasLock: bool, r: Resume): seq<SaveArg> {
    if ReplaysGeneration(r) || !GenerationLocked(env, hasLock, r) || env.generate.None? then []
    else [(GENERATION_STAGE, env.generate.value)]
  }

  /** The saves of a run that completes, in order; one that does not makes some of them, from the first on. */
  ghost function OwnSaves(env: Env, hasLock: bool, intra: bool, r: Resume): seq<SaveArg> {
    GenerationSaves(env, hasLock, r) +
    if Generation(env, r).None? then [] else FlowSaves(env, intra, r, RunFlow(env, r, Generation(env, r).value))
  }

  /** The saves of tries it gave up, made at any time after. */
  ghost function StraySaves(env: Env, intra: bool, r: Resume): multiset<SaveArg> {
    if Generation(env, r).None? then multiset{}
    else FlowStrays(env, intra, r, RunFlow(env, r, Generation(env, r).value))
  }

  /**
    A run that completes has saved generation first, unless it replayed it, and then every stage it did
    not replay, under its own label and with the lists the run went on with.
   */
  lemma CompletedRunSavesAll(env: Env, hasLock: bool, intra: bool, r: Resume, s: Stage)
    requires Completes(env, hasLock, r)
    ensures var own, f := OwnSaves(env, hasLock, intra, r), RunFlow(env, r, Generation(env, r).value);
      && SavesItsGeneration(env, hasLock, r, own)
      && (!Replays(r, s) ==> (s.Label(), At(f, s).result) in own)
  {
    hide Generation, RunFlow, Live, HarvestSaves, LastOutcome;
    if !Replays(r, s) {
      StageIsSaved(env, hasLock, intra, r, s, Generation(env, r).value);
    }
    hide StageSaves, StagesProceed, Replays;
  }

  lemma StageIsSaved(env: Env, hasLock: bool, intra: bool, r: Resume, s: Stage, gen: StageResult)
    requires StagesProceed(env, hasLock, r, RunFlow(env, r, gen)) && !Replays(r, s)
    ensures var f := RunFlow(env, r, gen);
      && (s.Label(), At(f, s).result) in StageSaves(env, intra, r, s, InputOf(f, s))
      && forall call <- StageSaves(env, intra, r, s, InputOf(f, s)) :: call in FlowSaves(env, intra, r, f)
  {
  }

  lemma WithinMore(m: Mark, n: Mark, own1: seq<SaveArg>, strays1: multiset<SaveArg>,
                   own: seq<SaveArg>, strays: multiset<SaveArg>)
    requires Within(m, n, own1, strays1) && own1 <= own && strays1 <= strays
    ensures Within(m, n, own, strays)
  {
    hide Grows;
    var own', strays' :| own' <= own1 && strays' <= strays1 && Grows(m, n, own', strays');
    assert own' <= own && strays' <= strays;
  }

  // Stretches without saves of its own, before and after.
  lemma IdlyWithin(m: Mark, n: Mark, o: Mark, own: seq<SaveArg>, strays: multiset<SaveArg>, all: bool)
    requires Grows(m, n, [], multiset{}) && Within(n, o, own, strays) && (all ==> Grows(n, o, own, strays))
    ensures Within(m, o, own, strays) && (all ==> Grows(m, o, own, strays))
  {
    hide Grows;
    var own', strays' :| own' <= own && strays' <= strays && Grows(n, o, own', strays');
    GrowsOn(m, n, o, [], multiset{}, own', strays');
    assert [] + own' == own' && multiset{} + strays' == strays';
    if all {
      GrowsOn(m, n, o, [], multiset{}, own, strays);
      assert [] + own == own && multiset{} + strays == strays;
    }
  }

  lemma WithinIdly(m: Mark, n: Mark, o: Mark, own: seq<SaveArg>, strays: multiset<SaveArg>, all: bool)
    requires Within(m, n, own, strays) && (all ==> Grows(m, n, own, strays)) && Grows(n, o, [], multiset{})
    ensures Within(m, o, own, strays) && (all ==> Grows(m, o, own, strays))
  {
    hide Grows;
    var own', strays' :| own' <= own && strays' <= strays && Grows(m, n, own', strays');
    GrowsIdly(m, n, o, own', strays');
    if all {
      GrowsIdly(m, n, o, own, strays);
    }
  }

  ghost predicate UnderStageLabel(call: SaveArg) {
    exists s: Stage :: call.0 == s.Label()
  }

  lemma SavesUnderLabels(env: Env, intra: bool, r: Resume, s: Stage, input: seq<Candidate>)
    ensures forall call <- StageSaves(env, intra, r, s, input) :: UnderStageLabel(call)
    ensures forall call <- StrayedBy(env, intra, r, s, input) :: UnderStageLabel(call)
  {
    hide Live;
    forall call | call in StageSaves(env, intra, r, s, input) ensures UnderStageLabel(call) {
      assert call.0 == s.Label();
    }
    StraysUnderLabels(env, intra, s, input, Decider(env, s, input, 1));
  }

  lemma {:induction false} StraysUnderLabels(env: Env, intra: bool, s: Stage, input: seq<Candidate>, k: nat)
    ensures forall call <- StrayCalls(env, intra, s, input, k) :: UnderStageLabel(call)
  {
    if k > 0 {
      StraysUnderLabels(env, intra, s, input, k - 1);
      forall call | call in StrayCall(env, intra, s, input, k) ensures UnderStageLabel(call) {
        assert call.0 == s.Label();
      }
    }
  }

  lemma StraysAreOwed(env: Env, intra: bool, r: Resume)
    ensures OwesStageSaves(StraySaves(env, intra, r))
  {
    if Generation(env, r).Some? {
      var f := RunFlow(env, r, Generation(env, r).value);
      SavesUnderLabels(env, intra, r, Dns, f.gen.passed);
      SavesUnderLabels(env, intra, r, Rdap, f.dns.result.passed);
      SavesUnderLabels(env, intra, r, Scoring, Known(f.rdap.result.passed));
      SavesUnderLabels(env, intra, r, Trademark, f.scoring.result.passed);
      hide StageSaves, StrayedBy, RunFlow;
    }
  }

  /**
    Whatever a run saves, in time or late, is what the crash theorems allow: generation's own result,
    or a stage label.
   */
  lemma SavesAreIssuable(env: Env, hasLock: bool, intra: bool, r: Resume, at: nat)
    ensures forall call <- OwnSaves(env, hasLock, intra, r) ::
        Issuable(env, Save(call.0, call.1.passed, call.1.filtered, at))
    ensures forall call <- StraySaves(env, intra, r) :: Issuable(env, Save(call.0, call.1.passed, call.1.filtered, at))
  {
    StraysAreOwed(env, intra, r);
    if Generation(env, r).Some? {
      var f := RunFlow(env, r, Generation(env, r).value);
      SavesUnderLabels(env, intra, r, Dns, f.gen.passed);
      SavesUnderLabels(env, intra, r, Rdap, f.dns.result.passed);
      SavesUnderLabels(env, intra, r, Scoring, Known(f.rdap.result.passed));
      SavesUnderLabels(env, intra, r, Trademark, f.scoring.result.passed);
      hide StageSaves, StrayedBy, RunFlow;
      forall call | call in FlowSaves(env, intra, r, f)
        ensures UnderStageLabel(call)
      {
      }
    }
  }

  /** What a run computes from the store it finds. */
  ghost function FlowOf(env: Env, rows: seq<Row>, runId: string, now: nat): Flow
    requires Generation(env, ResumeFrom(Load(rows, runId, now))).Some?
  {
    var r := ResumeFrom(Load(rows, runId, now));
    RunFlow(env, r, Generation(env, r).value)
  }

  /** A run from a store this code wrote balances exactly: generated = listed + Unknown + left over. */
  lemma CompletedRunAccountsForAll(env: Env, hasLock: bool, rows: seq<Row>, runId: string, now: nat)
    requires Contract(env) && Faithful(env, rows, runId)
    requires Completes(env, hasLock, ResumeFrom(Load(rows, runId, now)))
    ensures
      var f := FlowOf(env, rows, runId, now);
      LiveFlow(env, f) && Output(f.gen) == Domains(Assemble(f).all) + Unlisted(f) + AllLost(f)
  {
    hide Contract, Faithful, Load, RunFlow, LiveFlow, Assemble, Output, Domains, Unlisted, AllLost;
    var r := ResumeFrom(Load(rows, runId, now));
    FaithfulResume(env, rows, runId, now);
    RunFlowIsLive(env, r, Generation(env, r).value);
    CandidateAccounting(env, FlowOf(env, rows, runId, now));
  }

  /** And if its signal was not set when the trademark gate settled, whatever was left over is flagged and counted. */
  lemma CompletedRunFlagsLoss(env: Env, hasLock: bool, rows: seq<Row>, runId: string, now: nat)
    requires Contract(env) && SignalStays(env) && Faithful(env, rows, runId)
    requires Completes(env, hasLock, ResumeFrom(Load(rows, runId, now)))
    requires var f := FlowOf(env, rows, runId, now);
      !env.signalAt(Trademark, Decider(env, Trademark, InputOf(f, Trademark), 1))
    ensures
      var f := FlowOf(env, rows, runId, now);
      && |AllLost(f)| <= Shortfall(Assemble(f).degradedReasons)
      && (!Assemble(f).degraded ==> forall s: Stage :: Output(At(f, s).result) == Domains(InputOf(f, s)))
  {
    hide Contract, Faithful, Load, RunFlow, LiveFlow, Assemble, Output, Domains, AllLost, Shortfall, SignalStays;
    CompletedRunAccountsForAll(env, hasLock, rows, runId, now);
    CompletedIsNotCut(env, hasLock, ResumeFrom(Load(rows, runId, now)));
    LossIsNeverSilent(env, FlowOf(env, rows, runId, now));
  }

  lemma CompletedIsNotCut(env: Env, hasLock: bool, r: Resume)
    requires Completes(env, hasLock, r)
    ensures !env.abortedAfter(Dns) && !env.abortedAfter(Rdap) && !env.abortedAfter(Scoring)
  {
  }

  lemma LabelsAreColonFree(s: Stage)
    ensures ':' !in s.Label()
  {
  }
}
