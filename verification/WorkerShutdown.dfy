/** Shutdown and the end of polling, over every interleaving of the job worker. */
module WorkerShutdown {
  import opened Wrappers
  import opened JobWorker
  import opened WorkerJobs
  import WorkerRuns

  predicate SameStops(w: Worker, v: Worker) {
    v.stops == w.stops && v.resolver == w.resolver
  }

  lemma PollKeepsStops(c: Config, w: Worker, k: nat, delivery: Option<Delivery>, flag: bool)
    ensures SameStops(w, BeginPoll(c, w, k)) && SameStops(w, EndPoll(c, w, k, flag)) && SameStops(w, StartWorker(c, w))
    ensures SameStops(w, TakeJob(w, k, delivery)) && SameStops(w, DequeueError(w, k, flag))
  {
    hide PollDelay;
    if Awaits(w, k) && delivery.Some? {
      assert SameStops(w, StartJob(w, delivery.value));
      hide StartJob;
    }
  }

  predicate TouchesStops(e: Event) {
    e.Stop? || e.GraceElapsed? || e.HandlerEnded? || e.CompleteAnswered? || e.FailAnswered?
  }

  lemma StopsUnchanged(c: Config, w: Worker, e: Event)
    requires !TouchesStops(e)
    ensures SameStops(w, Step(c, w, e))
  {
    hide StartWorker, StopWorker, BeginPoll, TakeJob, DequeueError, EndPoll, GraceOver, SameStops;
    match e
    case Start => PollKeepsStops(c, w, 0, None, true);
    case Fire(t) => PollKeepsStops(c, w, t, None, true);
    case Dequeued(k, delivery) => PollKeepsStops(c, w, k, delivery, true);
    case DequeueThrew(k, isBusy) => PollKeepsStops(c, w, k, None, isBusy);
    case Requeued(k, ok) => PollKeepsStops(c, w, k, None, ok);
  }

  // ---- What `stop` waits for -----------------------------------------------------------------

  // The steps that can release a waiting `stop`: a grace timer, or the end that empties the map.
  predicate Drains(w: Worker, e: Event) {
    WorkerRuns.Processes(e) && Frees(w, e) && !w.running && w.active - {w.inFlight[PidOf(e)].job} == map[]
  }

  predicate GraceFires(w: Worker, e: Event) {
    e.GraceElapsed? && e.stop in w.graceTimers
  }

  // What happens to a waiting `stop`: released if `now`, still waiting otherwise.
  predicate Released(w: Worker, v: Worker, k: nat, now: bool)
    requires k < |w.stops|
  {
    && k < |v.stops|
    && v.stops[k] == if w.resolver == Some(k) && now then Resolved else w.stops[k]
  }

  // Later `stop`s take over, nothing else does; and the overtaken stay waiting.
  ghost predicate Overtaken(w: Worker, k: nat) {
    k < |w.stops| && w.stops[k].Waiting? && w.resolver.Some? && k < w.resolver.value
  }

  lemma ResolveReleases(w: Worker, k: nat)
    requires k < |w.stops| && w.stops[k].Waiting?
    ensures Released(w, Resolve(w), k, true) && Resolve(w).active == w.active && Resolve(w).resolver == w.resolver
  {
  }

  lemma EndReleases(w: Worker, pid: nat, frees: bool, k: nat)
    requires pid in w.inFlight && k < |w.stops| && w.stops[k].Waiting?
    ensures var v := EndJob(w, pid, frees);
      && Released(w, v, k, frees && !w.running && w.active - {w.inFlight[pid].job} == map[])
      && v.resolver == w.resolver && (frees ==> v.active == w.active - {w.inFlight[pid].job})
  {
    hide Resolve;
    if frees {
      var u := w.(inFlight := w.inFlight - {pid}, active := w.active - {w.inFlight[pid].job},
                  log := w.log.(freed := w.log.freed + multiset{pid}));
      assert EndJob(w, pid, frees) == CheckShutdown(u);
      ResolveReleases(u, k);
    }
  }

  lemma ProcessingReleases(c: Config, w: Worker, e: Event, k: nat)
    requires WorkerRuns.Processes(e) && k < |w.stops| && w.stops[k].Waiting?
    ensures Released(w, Step(c, w, e), k, Drains(w, e)) && Step(c, w, e).resolver == w.resolver
    ensures Drains(w, e) ==> Step(c, w, e).active == map[]
  {
    hide EndJob, Carried;
    var pid := PidOf(e);
    if Frees(w, e) {
      FreeingStep(c, w, e);
      EndReleases(w.(log := FreedLog(w, e)), pid, true, k);
    } else if e.FailAnswered? && pid in w.inFlight && w.inFlight[pid].phase.Failing? {
      EndReleases(w.(log := Carried(w.log, Fail(pid), e.reply)), pid, false, k);
    }
  }

  lemma SwitchReleases(w: Worker, stop: nat, k: nat)
    requires k < |w.stops| && w.stops[k].Waiting?
    ensures Released(w, StopWorker(w), k, false)
    ensures Released(w, GraceOver(w, stop), k, stop in w.graceTimers) && GraceOver(w, stop).resolver == w.resolver
    ensures Overtaken(w, k) ==> Overtaken(StopWorker(w), k)
  {
  }

  /** A call of `stop` returns at once exactly when the worker is not running or no job is in the map. */
  lemma StopAnswers(c: Config, w: Worker)
    ensures var v := Step(c, w, Stop);
      && !v.running && v.active == w.active
      && v.stops == w.stops + [if !w.running || w.active == map[] then Returned else Waiting]
  {
  }

  /** A waiting `stop` is released by exactly these steps, and only if it is the latest to wait. */
  lemma ReleasedIff(c: Config, w: Worker, e: Event, k: nat)
    requires k < |w.stops| && w.stops[k].Waiting?
    ensures k < |Step(c, w, e).stops|
    ensures Step(c, w, e).stops[k].Resolved? <==> w.resolver == Some(k) && (Drains(w, e) || GraceFires(w, e))
    ensures Step(c, w, e).stops[k].Resolved? || Step(c, w, e).stops[k].Waiting?
    ensures Drains(w, e) ==> Step(c, w, e).active == map[]
  {
    hide StopWorker, GraceOver, HandlerDone, CompleteDone, FailDone, Frees;
    if WorkerRuns.Processes(e) {
      hide Step, Drains;
      ProcessingReleases(c, w, e, k);
    } else if e.Stop? || e.GraceElapsed? {
      SwitchReleases(w, if e.Stop? then 0 else e.stop, k);
    } else {
      hide Step;
      StopsUnchanged(c, w, e);
    }
  }

  lemma StepKeepsOvertaken(c: Config, w: Worker, e: Event, k: nat)
    requires Overtaken(w, k)
    ensures Overtaken(Step(c, w, e), k)
  {
    hide StopWorker, GraceOver, HandlerDone, CompleteDone, FailDone, Drains;
    if WorkerRuns.Processes(e) {
      hide Step;
      ProcessingReleases(c, w, e, k);
    } else if e.Stop? || e.GraceElapsed? {
      SwitchReleases(w, if e.Stop? then 0 else e.stop, k);
    } else {
      hide Step;
      StopsUnchanged(c, w, e);
    }
  }

  /** A `stop` that is still waiting when a later one starts to wait never returns, whatever happens. */
  lemma {:induction false} OvertakenStopNeverReturns(c: Config, w: Worker, es: seq<Event>, k: nat)
    requires Overtaken(w, k)
    ensures Overtaken(Run(c, w, es), k)
    decreases |es|
  {
    hide Step, Overtaken;
    if es != [] {
      StepKeepsOvertaken(c, w, es[0], k);
      OvertakenStopNeverReturns(c, Step(c, w, es[0]), es[1..], k);
    }
  }

  /** Stopping, starting and stopping again over a running job strands the first `stop` that way. */
  lemma StopStartStopStrands(c: Config, w: Worker)
    requires w.running && w.active != map[]
    ensures Overtaken(Run(c, w, [Stop, Start, Stop]), |w.stops|)
  {
  }

  // ---- The grace timer -----------------------------------------------------------------------

  lemma JobAbortsNothing(w: Worker, d: Delivery)
    ensures StartJob(w, d).aborted == w.aborted
  {
  }

  lemma PollAbortsNothing(c: Config, w: Worker, k: nat, flag: bool)
    ensures StartWorker(c, w).aborted == w.aborted && StopWorker(w).aborted == w.aborted
    ensures BeginPoll(c, w, k).aborted == w.aborted && EndPoll(c, w, k, flag).aborted == w.aborted
  {
    hide PollDelay;
  }

  lemma DequeueAbortsNothing(w: Worker, k: nat, delivery: Option<Delivery>, isBusy: bool)
    ensures TakeJob(w, k, delivery).aborted == w.aborted && DequeueError(w, k, isBusy).aborted == w.aborted
  {
    hide StartJob;
    if delivery.Some? {
      JobAbortsNothing(w, delivery.value);
    }
  }

  lemma GraceAborts(w: Worker, stop: nat)
    ensures GraceOver(w, stop).aborted == w.aborted + if stop in w.graceTimers then w.active.Values else {}
    ensures GraceOver(w, stop).active == w.active
  {
  }

  /** Only a grace timer aborts processings: those in the map when it fires. */
  lemma AbortStep(c: Config, w: Worker, e: Event)
    ensures Step(c, w, e).aborted == w.aborted + if GraceFires(w, e) then w.active.Values else {}
  {
    hide StartWorker, StopWorker, BeginPoll, TakeJob, DequeueError, EndPoll, GraceOver;
    if WorkerRuns.Processes(e) {
      hide Step;
      WorkerRuns.ProcessingMayFree(c, w, e);
    } else {
      match e
      case Start => PollAbortsNothing(c, w, 0, true);
      case Stop => PollAbortsNothing(c, w, 0, true);
      case Fire(t) => PollAbortsNothing(c, w, t, true);
      case Dequeued(k, delivery) => DequeueAbortsNothing(w, k, delivery, true);
      case DequeueThrew(k, isBusy) => DequeueAbortsNothing(w, k, None, isBusy);
      case Requeued(k, ok) => PollAbortsNothing(c, w, k, ok);
      case GraceElapsed(stop) => GraceAborts(w, stop);
    }
  }

  /**
    Whatever releases a waiting `stop` leaves nothing running unsignalled: the map is empty, or every
    processing still in it has been aborted.
   */
  lemma ReleaseLeavesNoneUnsignalled(c: Config, w: Worker, e: Event, k: nat)
    requires k < |w.stops| && w.stops[k].Waiting?
    requires k < |Step(c, w, e).stops| && Step(c, w, e).stops[k].Resolved?
    ensures var v := Step(c, w, e);
      && (GraceFires(w, e) ==> v.active == w.active && v.active.Values <= v.aborted)
      && (!GraceFires(w, e) ==> v.active == map[])
  {
    hide Step, Drains;
    ReleasedIff(c, w, e, k);
    AbortStep(c, w, e);
    if GraceFires(w, e) {
      GraceAborts(w, e.stop);
      hide GraceOver;
      StepIsGrace(c, w, e);
    }
  }

  lemma StepIsGrace(c: Config, w: Worker, e: Event)
    requires e.GraceElapsed?
    ensures Step(c, w, e) == GraceOver(w, e.stop)
  {
    hide GraceOver;
  }

  ghost predicate AbortedAt(c: Config, es: seq<Event>, i: nat, pid: nat) {
    i < |es| && GraceFires(Run(c, IDLE, es[..i]), es[i]) && pid in Run(c, IDLE, es[..i]).active.Values
  }

  /** In every run a processing has been aborted exactly when a grace timer fired while it was in the map. */
  lemma {:induction false} AbortedIff(c: Config, es: seq<Event>, n: nat, pid: nat)
    requires n <= |es|
    ensures pid in Run(c, IDLE, es[..n]).aborted <==> exists i: nat :: i < n && AbortedAt(c, es, i, pid)
  {
    if n > 0 {
      hide Run, Step, GraceFires;
      AbortedIff(c, es, n - 1, pid);
      RunUpTo(c, es, n - 1);
      AbortStep(c, Run(c, IDLE, es[..n - 1]), es[n - 1]);
      assert AbortedAt(c, es, n - 1, pid) <==> GraceFires(Run(c, IDLE, es[..n - 1]), es[n - 1])
                                                && pid in Run(c, IDLE, es[..n - 1]).active.Values;
      hide AbortedAt;
    }
  }

  // The latest `stop`, while it waits, has its grace timer pending; and no timer outlives its `stop`'s wait.
  ghost predicate Timed(w: Worker) {
    && (w.resolver.Some? ==> w.resolver.value < |w.stops|)
    && (w.resolver.Some? && w.stops[w.resolver.value].Waiting? ==> w.resolver.value in w.graceTimers)
    && (w.resolver.None? ==> w.graceTimers == {} && forall s <- w.stops :: s.Returned?)
    && (forall k <- w.graceTimers :: k < |w.stops| && w.stops[k].Waiting?)
  }

  lemma ResolveKeepsTimed(w: Worker)
    requires Timed(w)
    ensures Timed(Resolve(w))
  {
  }

  lemma EndKeepsTimed(w: Worker, pid: nat, frees: bool)
    requires Timed(w) && pid in w.inFlight
    ensures Timed(EndJob(w, pid, frees))
  {
    if frees {
      var u := w.(inFlight := w.inFlight - {pid}, active := w.active - {w.inFlight[pid].job},
                  log := w.log.(freed := w.log.freed + multiset{pid}));
      assert EndJob(w, pid, frees) == CheckShutdown(u);
      assert Timed(u);
      ResolveKeepsTimed(u);
    }
  }

  lemma StopKeepsTimed(w: Worker)
    requires Timed(w)
    ensures Timed(StopWorker(w))
  {
  }

  lemma GraceKeepsTimed(w: Worker, stop: nat)
    requires Timed(w)
    ensures Timed(GraceOver(w, stop))
  {
    if stop in w.graceTimers {
      // Until it is resolved, the latest `stop` may be without its timer.
      var u := w.(graceTimers := w.graceTimers - {stop}, aborted := w.aborted + w.active.Values);
      assert GraceOver(w, stop) == Resolve(u);
    }
  }

  lemma ProcessingKeepsTimed(c: Config, w: Worker, e: Event)
    requires Timed(w) && WorkerRuns.Processes(e)
    ensures Timed(Step(c, w, e))
  {
    hide EndJob, Carried, Timed;
    var pid := PidOf(e);
    if Frees(w, e) {
      FreeingStep(c, w, e);
      SameTimed(w, w.(log := FreedLog(w, e)));
      EndKeepsTimed(w.(log := FreedLog(w, e)), pid, true);
    } else if e.FailAnswered? && pid in w.inFlight && w.inFlight[pid].phase.Failing? {
      SameTimed(w, w.(log := Carried(w.log, Fail(pid), e.reply)));
      EndKeepsTimed(w.(log := Carried(w.log, Fail(pid), e.reply)), pid, false);
    } else {
      hide FailDone;
      SameTimed(w, Step(c, w, e));
    }
  }

  lemma SameTimed(w: Worker, v: Worker)
    requires Timed(w) && SameStops(w, v) && v.graceTimers == w.graceTimers
    ensures Timed(v)
  {
  }

  lemma QuietKeepsTimers(c: Config, w: Worker, e: Event)
    requires !TouchesStops(e)
    ensures Step(c, w, e).graceTimers == w.graceTimers
  {
    hide PollDelay, StartJob;
    if e.Dequeued? && Awaits(w, e.poll) && e.delivery.Some? {
      StartKeepsTimers(w, e.delivery.value);
    }
  }

  lemma StartKeepsTimers(w: Worker, d: Delivery)
    ensures StartJob(w, d).graceTimers == w.graceTimers
  {
  }

  lemma StepKeepsTimed(c: Config, w: Worker, e: Event)
    requires Timed(w)
    ensures Timed(Step(c, w, e))
  {
    hide StopWorker, GraceOver, Timed;
    if WorkerRuns.Processes(e) {
      hide Step;
      ProcessingKeepsTimed(c, w, e);
    } else if e.Stop? {
      StopKeepsTimed(w);
    } else if e.GraceElapsed? {
      GraceKeepsTimed(w, e.stop);
    } else {
      hide Step;
      StopsUnchanged(c, w, e);
      QuietKeepsTimers(c, w, e);
      SameTimed(w, Step(c, w, e));
    }
  }

  lemma {:induction false} RunKeepsTimed(c: Config, w: Worker, es: seq<Event>)
    requires Timed(w)
    ensures Timed(Run(c, w, es))
    decreases |es|
  {
    hide Step, Timed;
    if es != [] {
      StepKeepsTimed(c, w, es[0]);
      RunKeepsTimed(c, Step(c, w, es[0]), es[1..]);
    }
  }

  /**
    In every run the latest `stop`, while it waits, has its grace timer pending, so it can always still
    be released; and a pending grace timer is that of a waiting `stop`.
   */
  lemma LatestStopIsTimed(c: Config, es: seq<Event>)
    ensures Timed(Run(c, IDLE, es))
  {
    RunKeepsTimed(c, IDLE, es);
  }

  // ---- After `stop` --------------------------------------------------------------------------

  predicate Never(es: seq<Event>, start: bool) {
    forall e <- es :: if start then !e.Start? else !e.Stop?
  }

  ghost predicate Settled(w: Worker) {
    !w.running && forall i | 0 <= i < |w.polls| :: w.polls[i].Requeueing?
  }

  lemma NoNewJobs(c: Config, w: Worker, e: Event)
    requires !e.Dequeued?
    ensures Step(c, w, e).nextPid == w.nextPid
  {
    if WorkerRuns.Processes(e) {
      ProcessingAdvances(c, w, e);
    } else {
      JobsUnchanged(c, w, e);
    }
  }

  lemma StepKeepsSettled(c: Config, w: Worker, e: Event)
    requires Settled(w) && !e.Start?
    ensures Settled(Step(c, w, e)) && Step(c, w, e).nextPid == w.nextPid
  {
    hide HandlerDone, CompleteDone, FailDone;
    if WorkerRuns.Processes(e) {
      hide Step;
      WorkerRuns.ProcessingMayFree(c, w, e);
    }
    if !e.Dequeued? {
      NoNewJobs(c, w, e);
    }
  }

  lemma {:induction false} RunKeepsSettled(c: Config, w: Worker, es: seq<Event>)
    requires Settled(w) && Never(es, true)
    ensures Run(c, w, es).nextPid == w.nextPid
    decreases |es|
  {
    hide Step, Settled;
    if es != [] {
      StepKeepsSettled(c, w, es[0]);
      RunKeepsSettled(c, Step(c, w, es[0]), es[1..]);
    }
  }

  /**
    Once stopped, the worker starts no job until the next `start` exactly when no poll was waiting
    for a `dequeue`: a suspended poll does not look at the running flag again.
   */
  lemma StoppedStartsNothingIff(c: Config, w: Worker)
    requires !w.running
    ensures (forall es | Never(es, true) :: Run(c, w, es).nextPid == w.nextPid)
        <==> (forall i | 0 <= i < |w.polls| :: w.polls[i].Requeueing?)
  {
    if forall i | 0 <= i < |w.polls| :: w.polls[i].Requeueing? {
      forall es | Never(es, true) ensures Run(c, w, es).nextPid == w.nextPid {
        RunKeepsSettled(c, w, es);
      }
    } else {
      var k: nat :| k < |w.polls| && w.polls[k].Dequeuing?;
      var es := [Dequeued(k, Some(Delivery(0, Runnable)))];
      assert es[1..] == [];
      assert Run(c, w, es) == Step(c, w, es[0]);
      assert Never(es, true) && Run(c, w, es).nextPid == w.nextPid + 1;
    }
  }

  // ---- The end of a poll chain ---------------------------------------------------------------

  ghost predicate NoChain(w: Worker) {
    w.running && w.timers == map[] && w.polls == []
  }

  lemma StepKeepsNoChain(c: Config, w: Worker, e: Event)
    requires NoChain(w) && !e.Stop?
    ensures NoChain(Step(c, w, e)) && Step(c, w, e).nextPid == w.nextPid
  {
    hide HandlerDone, CompleteDone, FailDone;
    if WorkerRuns.Processes(e) {
      hide Step;
      WorkerRuns.ProcessingMayFree(c, w, e);
    }
    if !e.Dequeued? {
      NoNewJobs(c, w, e);
    }
  }

  /** A worker whose only poll died takes no job again until it is stopped and started. */
  lemma {:induction false} DeadChainStaysDead(c: Config, w: Worker, es: seq<Event>)
    requires NoChain(w) && Never(es, false)
    ensures NoChain(Run(c, w, es)) && Run(c, w, es).nextPid == w.nextPid
    decreases |es|
  {
    hide Step, NoChain;
    if es != [] {
      StepKeepsNoChain(c, w, es[0]);
      DeadChainStaysDead(c, Step(c, w, es[0]), es[1..]);
    }
  }

  /** The rejected `requeueStuck` of the only poll left, with no timer pending. */
  predicate KillsLastChain(w: Worker, e: Event) {
    e.Requeued? && !e.ok && e.poll == 0 && w.running && w.timers == map[] && w.polls == [Requeueing]
  }

  lemma SwitchLives(c: Config, w: Worker, e: Event)
    requires (e.Start? || e.Stop? || e.Fire?) && !NoChain(w)
    ensures !NoChain(Step(c, w, e))
  {
    hide PollDelay;
    var v := Step(c, w, e);
    assert v.nextTimer == w.nextTimer || w.nextTimer in v.timers;
  }

  lemma RequeueLives(c: Config, w: Worker, k: nat, ok: bool)
    requires !NoChain(w)
    ensures NoChain(EndPoll(c, w, k, ok)) <==> KillsLastChain(w, Requeued(k, ok))
  {
    hide PollDelay;
    var v := EndPoll(c, w, k, ok);
    assert v.nextTimer == w.nextTimer || w.nextTimer in v.timers;
    if k < |w.polls| {
      assert |w.polls[..k] + w.polls[k + 1..]| == |w.polls| - 1;
      assert |w.polls| == 1 ==> w.polls == [w.polls[0]];
    }
  }

  lemma PollingLives(c: Config, w: Worker, e: Event)
    requires WorkerRuns.TouchesPolling(e) && !NoChain(w)
    ensures NoChain(Step(c, w, e)) <==> KillsLastChain(w, e)
  {
    if e.Requeued? {
      hide EndPoll, NoChain, KillsLastChain;
      RequeueLives(c, w, e.poll, e.ok);
    } else {
      hide Step, NoChain;
      SwitchLives(c, w, e);
    }
  }

  /** Nothing else ends the last chain: not a stop, a restart, a failed dequeue or any end of a job. */
  lemma ChainDiesIff(c: Config, w: Worker, e: Event)
    requires !NoChain(w)
    ensures NoChain(Step(c, w, e)) <==> KillsLastChain(w, e)
  {
    hide Step;
    if WorkerRuns.TouchesPolling(e) {
      PollingLives(c, w, e);
    } else {
      WorkerRuns.QuietStep(c, w, e);
    }
  }

  predicate NoRejectedRequeue(es: seq<Event>) {
    forall e <- es :: e.Requeued? ==> e.ok
  }

  lemma {:induction false} RunKeepsChain(c: Config, w: Worker, es: seq<Event>)
    requires !NoChain(w) && NoRejectedRequeue(es)
    ensures !NoChain(Run(c, w, es))
    decreases |es|
  {
    hide Step, NoChain;
    if es != [] {
      assert es[0] in es;
      ChainDiesIff(c, w, es[0]);
      RunKeepsChain(c, Step(c, w, es[0]), es[1..]);
    }
  }

  /** In every run without a rejected `requeueStuck` a running worker has a timer or a poll. */
  lemma ChainOutlivesEverythingElse(c: Config, es: seq<Event>)
    requires NoRejectedRequeue(es)
    ensures var w := Run(c, IDLE, es); w.running ==> w.timers != map[] || w.polls != []
  {
    RunKeepsChain(c, IDLE, es);
  }

  // ---- Backoff -------------------------------------------------------------------------------

  lemma Pow2Grows(a: nat, b: nat)
    requires a <= b
    ensures Pow2(a) <= Pow2(b)
    decreases b
  {
  }

  lemma MulGrows(interval: nat, p: nat, q: nat)
    requires p <= q
    ensures interval * p <= interval * q
  {
  }

  lemma BackoffGrows(interval: nat, b: nat, d: nat)
    requires 1 <= b <= d
    ensures PollDelay(interval, b) <= PollDelay(interval, d) <= 30000
  {
    var p, q := if b - 1 < 5 then b - 1 else 5, if d - 1 < 5 then d - 1 else 5;
    Pow2Grows(p, q);
    MulGrows(interval, Pow2(p), Pow2(q));
  }

  /** Backing off never means polling more often, provided the interval is within the 30 s cap. */
  lemma BackoffNeverHastensIff(interval: nat)
    ensures (forall busy :: PollDelay(interval, busy) >= interval) <==> interval <= 30000
  {
    forall busy: nat | busy > 0 ensures interval <= 30000 ==> PollDelay(interval, busy) >= interval {
      BackoffGrows(interval, 1, busy);
    }
    BackoffGrows(interval, 1, 1);
    assert interval > 30000 ==> PollDelay(interval, 1) < interval;
  }

  /**
    The first busy error in a row leaves the interval, each further one doubles the delay up to the
    sixth, and none takes it past the cap.
   */
  lemma DelayDoubles(interval: nat, busy: nat)
    ensures PollDelay(interval, 0) == interval
    ensures PollDelay(interval, 1) == interval || (PollDelay(interval, 1) == 30000 && interval > 30000)
    ensures 1 <= busy < 6 && 2 * PollDelay(interval, busy) < 30000 ==>
              PollDelay(interval, busy + 1) == 2 * PollDelay(interval, busy)
    ensures 1 <= busy < 6 && 2 * PollDelay(interval, busy) >= 30000 ==> PollDelay(interval, busy + 1) == 30000
    ensures busy >= 6 ==> PollDelay(interval, busy + 1) == PollDelay(interval, busy)
  {
    assert Pow2(0) == 1;
    if 1 <= busy < 6 {
      assert Pow2(busy) == 2 * Pow2(busy - 1);
      assert interval * Pow2(busy) == 2 * (interval * Pow2(busy - 1));
    }
  }

  // A busy error of a poll that has taken nothing.
  predicate CountsBusy(w: Worker, e: Event) {
    e.DequeueThrew? && e.isBusy && Awaits(w, e.poll) && w.polls[e.poll].got == 0
  }

  // A poll that finds all slots taken, or ends having taken a job. An empty queue resets nothing.
  predicate ResetsBusy(c: Config, w: Worker, e: Event) {
    match e
    case Fire(t) => t in w.timers && w.running && |w.active| >= c.concurrency
    case Dequeued(k, delivery) =>
      Awaits(w, k) && (if delivery.Some? then w.polls[k].left <= 1 else w.polls[k].got > 0)
    case DequeueThrew(k, _) => Awaits(w, k) && w.polls[k].got > 0
    case _ => false
  }

  lemma BusyStep(c: Config, w: Worker, e: Event)
    ensures Step(c, w, e).busy ==
      if ResetsBusy(c, w, e) then 0 else if CountsBusy(w, e) then w.busy + 1 else w.busy
  {
    hide PollDelay, HandlerDone, CompleteDone, FailDone;
    if WorkerRuns.Processes(e) {
      hide Step;
      WorkerRuns.ProcessingMayFree(c, w, e);
    } else if e.Dequeued? && e.delivery.Some? {
      JobLeavesBusy(w, e.delivery.value);
      hide StartJob;
    }
  }

  lemma JobLeavesBusy(w: Worker, d: Delivery)
    ensures StartJob(w, d).busy == w.busy && StartJob(w, d).polls == w.polls
  {
  }

  ghost predicate CountedAt(c: Config, es: seq<Event>, i: nat) {
    i < |es| && CountsBusy(Run(c, IDLE, es[..i]), es[i])
  }

  ghost predicate ResetAt(c: Config, es: seq<Event>, i: nat) {
    i < |es| && ResetsBusy(c, Run(c, IDLE, es[..i]), es[i])
  }

  /** The busy errors before step `n` that nothing before it has reset. */
  ghost function BusyErrors(c: Config, es: seq<Event>, n: nat): set<nat> {
    set i: nat | i < n && CountedAt(c, es, i) && forall j: nat | i < j < n :: !ResetAt(c, es, j)
  }

  lemma BusyErrorsNext(c: Config, es: seq<Event>, n: nat)
    requires n < |es| && !(ResetAt(c, es, n) && CountedAt(c, es, n))
    ensures |BusyErrors(c, es, n + 1)| ==
      if ResetAt(c, es, n) then 0 else |BusyErrors(c, es, n)| + if CountedAt(c, es, n) then 1 else 0
  {
    hide CountedAt, ResetAt;
    var before, next := BusyErrors(c, es, n), BusyErrors(c, es, n + 1);
    if ResetAt(c, es, n) {
      forall i ensures i !in next {
      }
      assert next == {};
    } else {
      forall i ensures i in next <==> i in before || (i == n && CountedAt(c, es, n)) {
      }
      assert n !in before;
      assert next == before + if CountedAt(c, es, n) then {n} else {};
    }
  }

  /**
    In every run the counter behind the delay is the number of busy errors since a poll last took a job or
    found all slots taken; polls that find the queue empty do not bring the delay down.
   */
  lemma {:induction false} BusyIsCounted(c: Config, es: seq<Event>, n: nat)
    requires n <= |es|
    ensures Run(c, IDLE, es[..n]).busy == |BusyErrors(c, es, n)|
  {
    if n == 0 {
      assert BusyErrors(c, es, 0) == {};
    } else {
      var w := Run(c, IDLE, es[..n - 1]);
      assert CountedAt(c, es, n - 1) <==> CountsBusy(w, es[n - 1]);
      assert ResetAt(c, es, n - 1) <==> ResetsBusy(c, w, es[n - 1]);
      hide Run, Step, CountsBusy, ResetsBusy, CountedAt, ResetAt, BusyErrors;
      BusyIsCounted(c, es, n - 1);
      RunUpTo(c, es, n - 1);
      BusyStep(c, w, es[n - 1]);
      NeverBoth(c, w, es[n - 1]);
      BusyErrorsNext(c, es, n - 1);
    }
  }

  lemma NeverBoth(c: Config, w: Worker, e: Event)
    ensures !(CountsBusy(w, e) && ResetsBusy(c, w, e))
  {
  }

  /** Whatever timer a step sets is set to the delay for the counter it leaves. */
  lemma TimersAreDelays(c: Config, w: Worker, e: Event, t: nat)
    requires t in Step(c, w, e).timers && t !in w.timers
    ensures Step(c, w, e).timers[t] == PollDelay(c.interval, Step(c, w, e).busy)
  {
    hide PollDelay;
    if !WorkerRuns.TouchesPolling(e) {
      hide Step;
      WorkerRuns.QuietStep(c, w, e);
    }
  }
}
