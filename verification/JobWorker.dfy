/**
  The background job worker.  Its asynchronous methods are cut at their awaits: each method of
  the class is what runs between two awaits, so any order of calls is an interleaving.
 */
module JobWorker {
  import opened Wrappers

  type Job = int

  // A poll waits for `dequeue` (with so many slots to fill, so many filled) or for `requeueStuck`.
  datatype Poll = Dequeuing(left: nat, got: nat) | Requeueing

  // A call of `stop`: returned at once, waiting for the shutdown promise, or released by it.
  datatype StopCall = Returned | Waiting | Resolved

  // What `#processJob` finds when it starts, how its handler ends, and what the queue answers.
  datatype JobKind = Runnable | NoHandler | BadPayload
  datatype Delivery = Delivery(job: Job, kind: JobKind)
  datatype HandlerEnd = Returns | Throws(abortError: bool)
  datatype Reply = Accepted | Rejected(applied: bool, abortError: bool)

  // What a processing waits for; `missing` marks the branch without a handler.
  datatype Phase = Handling | Completing | Failing(missing: bool)
  datatype Processing = Processing(job: Job, phase: Phase)

  datatype Call = Complete(pid: nat) | Fail(pid: nat)

  /**
    The queue's side: the calls made to it, those that took effect there, the slots given back;
    and of the processings: whose handler was missing or failed, whose `complete` was refused,
    accepted, and which were given up on an AbortError.
   */
  datatype Log = Log(calls: multiset<Call>, applied: multiset<Call>, freed: multiset<nat>,
                     troubled: set<nat>, refused: set<nat>, accepted: set<nat>, dropped: set<nat>)

  const BLANK: Log := Log(multiset{}, multiset{}, multiset{}, {}, {}, {}, {})

  datatype Config = Config(concurrency: nat, interval: nat)

  /** `active` is the job map with its abort controllers; a processing is its own controller. */
  datatype Worker = Worker(
    running: bool, active: map<Job, nat>, busy: nat,
    timers: map<nat, nat>, pollTimer: Option<nat>, nextTimer: nat, polls: seq<Poll>,
    inFlight: map<nat, Processing>, nextPid: nat, log: Log, aborted: set<nat>,
    stops: seq<StopCall>, resolver: Option<nat>, graceTimers: set<nat>)

  const IDLE: Worker :=
    Worker(false, map[], 0, map[], None, 0, [], map[], 0, BLANK, {}, [], None, {})

  datatype Event =
    | Start
    | Stop
    | Fire(timer: nat)
    | Dequeued(poll: nat, delivery: Option<Delivery>)
    | DequeueThrew(poll: nat, isBusy: bool)
    | Requeued(poll: nat, ok: bool)
    | HandlerEnded(pid: nat, end: HandlerEnd)
    | CompleteAnswered(pid: nat, reply: Reply)
    | FailAnswered(pid: nat, reply: Reply)
    | GraceElapsed(stop: nat)

  // ---- The steps as functions ----------------------------------------------------------------

  function Pow2(n: nat): (p: nat)
    ensures p >= 1
  {
    if n == 0 then 1 else 2 * Pow2(n - 1)
  }

  function PollDelay(interval: nat, busy: nat): nat {
    if busy == 0 then interval
    else
      var backoff := interval * Pow2(if busy - 1 < 5 then busy - 1 else 5);
      if backoff < 30000 then backoff else 30000
  }

  function SchedulePoll(c: Config, w: Worker): Worker {
    if !w.running then w
    else
      w.(timers := w.timers[w.nextTimer := PollDelay(c.interval, w.busy)],
         pollTimer := Some(w.nextTimer), nextTimer := w.nextTimer + 1)
  }

  function StartWorker(c: Config, w: Worker): Worker {
    if w.running then w else SchedulePoll(c, w.(running := true))
  }

  function StopWorker(w: Worker): Worker {
    if !w.running then w.(stops := w.stops + [Returned])
    else
      var v := w.(running := false, pollTimer := None,
                  timers := if w.pollTimer.Some? then w.timers - {w.pollTimer.value} else w.timers);
      if w.active == map[] then v.(stops := w.stops + [Returned])
      else
        v.(stops := w.stops + [Waiting], resolver := Some(|w.stops|), graceTimers := w.graceTimers + {|w.stops|})
  }

  function BeginPoll(c: Config, w: Worker, timer: nat): Worker {
    if timer !in w.timers then w
    else
      var v := w.(timers := w.timers - {timer});
      if !w.running then v
      else if |w.active| >= c.concurrency then SchedulePoll(c, v.(busy := 0))
      else v.(polls := w.polls + [Dequeuing(c.concurrency - |w.active|, 0)])
  }

  predicate Awaits(w: Worker, k: nat) {
    k < |w.polls| && w.polls[k].Dequeuing?
  }

  function LeaveLoop(w: Worker, k: nat, got: nat): Worker
    requires k < |w.polls|
  {
    w.(polls := w.polls[k := Requeueing], busy := if got > 0 then 0 else w.busy)
  }

  /** `#processJob` up to its first await. */
  function StartJob(w: Worker, d: Delivery): Worker {
    var v := w.(active := w.active[d.job := w.nextPid], nextPid := w.nextPid + 1,
                inFlight := w.inFlight[w.nextPid := Processing(d.job, Handling)]);
    if d.kind.Runnable? then v
    else CallFail(v.(log := v.log.(troubled := v.log.troubled + {w.nextPid})), w.nextPid, d.kind.NoHandler?)
  }

  function CallFail(w: Worker, pid: nat, missing: bool): Worker
    requires pid in w.inFlight
  {
    w.(inFlight := w.inFlight[pid := w.inFlight[pid].(phase := Failing(missing))],
       log := w.log.(calls := w.log.calls + multiset{Fail(pid)}))
  }

  function TakeJob(w: Worker, k: nat, delivery: Option<Delivery>): Worker {
    if !Awaits(w, k) then w
    else
      var p := w.polls[k];
      if delivery.None? then LeaveLoop(w, k, p.got)
      else
        var v := StartJob(w, delivery.value);
        if p.left <= 1 then LeaveLoop(v, k, p.got + 1)
        else v.(polls := v.polls[k := Dequeuing(p.left - 1, p.got + 1)])
  }

  function DequeueError(w: Worker, k: nat, isBusy: bool): Worker {
    if !Awaits(w, k) then w
    else LeaveLoop(if isBusy then w.(busy := w.busy + 1) else w, k, w.polls[k].got)
  }

  // A rejected `requeueStuck` is not caught: the poll dies without scheduling the next one.
  function EndPoll(c: Config, w: Worker, k: nat, ok: bool): Worker {
    if k >= |w.polls| || w.polls[k].Dequeuing? then w
    else
      var v := w.(polls := w.polls[..k] + w.polls[k + 1..]);
      if ok then SchedulePoll(c, v) else v
  }

  function Resolve(w: Worker): Worker {
    if w.resolver.None? || w.resolver.value >= |w.stops| || !w.stops[w.resolver.value].Waiting? then w
    else w.(stops := w.stops[w.resolver.value := Resolved], graceTimers := w.graceTimers - {w.resolver.value})
  }

  function CheckShutdown(w: Worker): Worker {
    if !w.running && w.active == map[] then Resolve(w) else w
  }

  /** The end of a processing; without a handler the slot is kept when `fail` is rejected. */
  function EndJob(w: Worker, pid: nat, frees: bool): Worker
    requires pid in w.inFlight
  {
    var v := w.(inFlight := w.inFlight - {pid});
    if !frees then v
    else
      CheckShutdown(v.(active := w.active - {w.inFlight[pid].job},
                       log := w.log.(freed := w.log.freed + multiset{pid})))
  }

  predicate In(w: Worker, pid: nat, phase: Phase) {
    pid in w.inFlight && w.inFlight[pid].phase == phase
  }

  function HandlerDone(w: Worker, pid: nat, end: HandlerEnd): Worker {
    if !In(w, pid, Handling) then w
    else
      match end
      case Returns =>
        w.(inFlight := w.inFlight[pid := w.inFlight[pid].(phase := Completing)],
           log := w.log.(calls := w.log.calls + multiset{Complete(pid)}))
      case Throws(true) => EndJob(w.(log := w.log.(dropped := w.log.dropped + {pid})), pid, true)
      case Throws(false) => CallFail(w.(log := w.log.(troubled := w.log.troubled + {pid})), pid, false)
  }

  /** The log once the queue has carried out a call, whatever it then answered. */
  function Carried(l: Log, call: Call, reply: Reply): Log {
    if reply.Accepted? || reply.applied then l.(applied := l.applied + multiset{call}) else l
  }

  function CompleteDone(w: Worker, pid: nat, reply: Reply): Worker {
    if !In(w, pid, Completing) then w
    else
      var l := Carried(w.log, Complete(pid), reply);
      match reply
      case Accepted => EndJob(w.(log := l.(accepted := l.accepted + {pid})), pid, true)
      case Rejected(_, true) => EndJob(w.(log := l.(dropped := l.dropped + {pid})), pid, true)
      case Rejected(_, false) => CallFail(w.(log := l.(refused := l.refused + {pid})), pid, false)
  }

  function FailDone(w: Worker, pid: nat, reply: Reply): Worker {
    if pid !in w.inFlight || !w.inFlight[pid].phase.Failing? then w
    else
      EndJob(w.(log := Carried(w.log, Fail(pid), reply)), pid, w.inFlight[pid].phase.missing ==> reply.Accepted?)
  }

  function GraceOver(w: Worker, stop: nat): Worker {
    if stop !in w.graceTimers then w
    else Resolve(w.(graceTimers := w.graceTimers - {stop}, aborted := w.aborted + w.active.Values))
  }

  function Step(c: Config, w: Worker, e: Event): Worker {
    match e
    case Start => StartWorker(c, w)
    case Stop => StopWorker(w)
    case Fire(timer) => BeginPoll(c, w, timer)
    case Dequeued(k, delivery) => TakeJob(w, k, delivery)
    case DequeueThrew(k, isBusy) => DequeueError(w, k, isBusy)
    case Requeued(k, ok) => EndPoll(c, w, k, ok)
    case HandlerEnded(pid, end) => HandlerDone(w, pid, end)
    case CompleteAnswered(pid, reply) => CompleteDone(w, pid, reply)
    case FailAnswered(pid, reply) => FailDone(w, pid, reply)
    case GraceElapsed(stop) => GraceOver(w, stop)
  }

  function Run(c: Config, w: Worker, es: seq<Event>): Worker
    decreases |es|
  {
    if es == [] then w else Run(c, Step(c, w, es[0]), es[1..])
  }

  // ---- The worker ----------------------------------------------------------------------------

  class JobWorker {
    const config: Config
    var running: bool
    var activeJobs: map<Job, nat>
    var consecutiveBusy: nat
    var pollTimer: Option<nat>
    var shutdownResolve: Option<nat>
    // The event loop's side: pending timers, suspended polls and processings, callers of `stop`.
    var timers: map<nat, nat>
    var nextTimer: nat
    var polls: seq<Poll>
    var inFlight: map<nat, Processing>
    var nextPid: nat
    var log: Log
    var aborted: set<nat>
    var stops: seq<StopCall>
    var graceTimers: set<nat>

    constructor (config: Config)
      ensures this.config == config && View() == IDLE
    {
      this.config := config;
      running, activeJobs, consecutiveBusy, pollTimer, shutdownResolve := false, map[], 0, None, None;
      timers, nextTimer, polls, inFlight, nextPid, log := map[], 0, [], map[], 0, BLANK;
      aborted, stops, graceTimers := {}, [], {};
    }

    ghost function View(): Worker
      reads this
    {
      Worker(running, activeJobs, consecutiveBusy, timers, pollTimer, nextTimer, polls,
             inFlight, nextPid, log, aborted, stops, shutdownResolve, graceTimers)
    }

    method PollDelayMs() returns (ms: nat)
      ensures ms == PollDelay(config.interval, consecutiveBusy)
    {
      if consecutiveBusy == 0 {
        return config.interval;
      }
      var exponent := if consecutiveBusy - 1 < 5 then consecutiveBusy - 1 else 5;
      var backoffMs := config.interval;
      var i := 0;
      while i < exponent
        invariant 0 <= i <= exponent && backoffMs == config.interval * Pow2(i)
      {
        assert Pow2(i + 1) == 2 * Pow2(i);
        backoffMs := 2 * backoffMs;
        i := i + 1;
      }
      return if backoffMs < 30000 then backoffMs else 30000;
    }

    method ScheduleNext()
      modifies this
      ensures View() == SchedulePoll(config, old(View()))
    {
      if !running {
        return;
      }
      var base := config.interval;
      if consecutiveBusy > 0 {
        base := PollDelayMs();
      }
      timers := timers[nextTimer := base];
      pollTimer := Some(nextTimer);
      nextTimer := nextTimer + 1;
    }

    method StartPolling()
      modifies this
      ensures View() == StartWorker(config, old(View()))
    {
      if running {
        return;
      }
      running := true;
      ScheduleNext();
    }

    method StopPolling()
      modifies this
      ensures View() == StopWorker(old(View()))
    {
      if !running {
        stops := stops + [Returned];
        return;
      }
      running := false;
      if pollTimer.Some? {
        timers := timers - {pollTimer.value};
        pollTimer := None;
      }
      if activeJobs == map[] {
        stops := stops + [Returned];
        return;
      }
      shutdownResolve := Some(|stops|);
      graceTimers := graceTimers + {|stops|};
      stops := stops + [Waiting];
    }

    method OnPollTimer(timer: nat)
      modifies this
      ensures View() == BeginPoll(config, old(View()), timer)
    {
      if timer !in timers {
        return;
      }
      timers := timers - {timer};
      if !running {
        return;
      }
      if |activeJobs| >= config.concurrency {
        consecutiveBusy := 0;
        ScheduleNext();
        return;
      }
      polls := polls + [Dequeuing(config.concurrency - |activeJobs|, 0)];
    }

    method OnDequeued(k: nat, delivery: Option<Delivery>)
      modifies this
      ensures View() == TakeJob(old(View()), k, delivery)
    {
      if k >= |polls| || !polls[k].Dequeuing? {
        return;
      }
      var p := polls[k];
      if delivery.Some? {
        ProcessJob(delivery.value);
        p := Dequeuing(if p.left <= 1 then 0 else p.left - 1, p.got + 1);
        if p.left > 0 {
          polls := polls[k := p];
          return;
        }
      }
      FinishDequeuing(k, p.got);
    }

    method ProcessJob(d: Delivery)
      modifies this
      ensures View() == StartJob(old(View()), d)
    {
      var pid := nextPid;
      activeJobs := activeJobs[d.job := pid];
      inFlight := inFlight[pid := Processing(d.job, Handling)];
      nextPid := nextPid + 1;
      if d.kind.NoHandler? || d.kind.BadPayload? {
        log := log.(troubled := log.troubled + {pid});
        CallFailOf(pid, d.kind.NoHandler?);
      }
    }

    method CallFailOf(pid: nat, missing: bool)
      requires pid in inFlight
      modifies this
      ensures View() == CallFail(old(View()), pid, missing)
    {
      log := log.(calls := log.calls + multiset{Fail(pid)});
      inFlight := inFlight[pid := inFlight[pid].(phase := Failing(missing))];
    }

    method OnDequeueError(k: nat, isBusy: bool)
      modifies this
      ensures View() == DequeueError(old(View()), k, isBusy)
    {
      if k >= |polls| || !polls[k].Dequeuing? {
        return;
      }
      if isBusy {
        consecutiveBusy := consecutiveBusy + 1;
      }
      FinishDequeuing(k, polls[k].got);
    }

    method FinishDequeuing(k: nat, got: nat)
      requires k < |polls|
      modifies this
      ensures View() == LeaveLoop(old(View()), k, got)
    {
      if got > 0 {
        consecutiveBusy := 0;
      }
      polls := polls[k := Requeueing];
    }

    method OnRequeued(k: nat, ok: bool)
      modifies this
      ensures View() == EndPoll(config, old(View()), k, ok)
    {
      if k >= |polls| || polls[k].Dequeuing? {
        return;
      }
      polls := polls[..k] + polls[k + 1..];
      if ok {
        ScheduleNext();
      }
    }

    method OnHandlerEnded(pid: nat, end: HandlerEnd)
      modifies this
      ensures View() == HandlerDone(old(View()), pid, end)
    {
      if pid !in inFlight || inFlight[pid].phase != Handling {
        return;
      }
      match end
      case Returns =>
        log := log.(calls := log.calls + multiset{Complete(pid)});
        inFlight := inFlight[pid := inFlight[pid].(phase := Completing)];
      case Throws(abortError) =>
        if abortError {
          log := log.(dropped := log.dropped + {pid});
          FinishJob(pid, true);
        } else {
          log := log.(troubled := log.troubled + {pid});
          CallFailOf(pid, false);
        }
    }

    method OnCompleteAnswered(pid: nat, reply: Reply)
      modifies this
      ensures View() == CompleteDone(old(View()), pid, reply)
    {
      if pid !in inFlight || inFlight[pid].phase != Completing {
        return;
      }
      log := Carried(log, Complete(pid), reply);
      match reply
      case Accepted =>
        log := log.(accepted := log.accepted + {pid});
        FinishJob(pid, true);
      case Rejected(_, abortError) =>
        if abortError {
          log := log.(dropped := log.dropped + {pid});
          FinishJob(pid, true);
        } else {
          log := log.(refused := log.refused + {pid});
          CallFailOf(pid, false);
        }
    }

    method OnFailAnswered(pid: nat, reply: Reply)
      modifies this
      ensures View() == FailDone(old(View()), pid, reply)
    {
      if pid !in inFlight || !inFlight[pid].phase.Failing? {
        return;
      }
      log := Carried(log, Fail(pid), reply);
      FinishJob(pid, inFlight[pid].phase.missing ==> reply.Accepted?);
    }

    // `#activeJobs.delete` and `#checkShutdown`, where the branch gets that far.
    method FinishJob(pid: nat, frees: bool)
      requires pid in inFlight
      modifies this
      ensures View() == EndJob(old(View()), pid, frees)
    {
      var job := inFlight[pid].job;
      inFlight := inFlight - {pid};
      if !frees {
        return;
      }
      activeJobs := activeJobs - {job};
      log := log.(freed := log.freed + multiset{pid});
      if !running && activeJobs == map[] {
        ReleaseStop();
      }
    }

    method OnGraceElapsed(stop: nat)
      modifies this
      ensures View() == GraceOver(old(View()), stop)
    {
      if stop !in graceTimers {
        return;
      }
      graceTimers := graceTimers - {stop};
      aborted := aborted + activeJobs.Values;
      ReleaseStop();
    }

    method ReleaseStop()
      modifies this
      ensures View() == Resolve(old(View()))
    {
      if shutdownResolve.Some? && shutdownResolve.value < |stops| && stops[shutdownResolve.value].Waiting? {
        stops := stops[shutdownResolve.value := Resolved];
        graceTimers := graceTimers - {shutdownResolve.value};
      }
    }
  }
}
