/** What holds of the job worker over every interleaving of polls, processings, starts and stops. */
module WorkerRuns {
  import opened Wrappers
  import opened JobWorker

  // ---- The concurrency bound -----------------------------------------------------------------

  // A start that finds a poll of the previous life still suspended; each one adds a poll chain.
  predicate RestartsMidPoll(w: Worker, e: Event) {
    e.Start? && !w.running && w.polls != []
  }

  function Restarts(c: Config, w: Worker, es: seq<Event>): nat
    decreases |es|
  {
    if es == [] then 0
    else (if RestartsMidPoll(w, es[0]) then 1 else 0) + Restarts(c, Step(c, w, es[0]), es[1..])
  }

  function Left(p: Poll): nat {
    if p.Dequeuing? then p.left else 0
  }

  /** Jobs the suspended polls may still take. */
  function Claims(polls: seq<Poll>): nat {
    if polls == [] then 0 else Left(polls[0]) + Claims(polls[1..])
  }

  lemma {:induction false} ClaimsSplit(a: seq<Poll>, b: seq<Poll>)
    ensures Claims(a + b) == Claims(a) + Claims(b)
  {
    if a == [] {
      assert a + b == b;
    } else {
      assert (a + b)[1..] == a[1..] + b;
      ClaimsSplit(a[1..], b);
    }
  }

  lemma ClaimsAround(a: seq<Poll>, p: Poll, b: seq<Poll>)
    ensures Claims(a + ([p] + b)) == Claims(a) + Left(p) + Claims(b)
  {
    ClaimsSplit(a, [p] + b);
    assert ([p] + b)[1..] == b;
  }

  lemma ClaimsAt(polls: seq<Poll>, k: nat, p: Poll)
    requires k < |polls|
    ensures Claims(polls[..k] + polls[k + 1..]) == Claims(polls) - Left(polls[k])
    ensures Claims(polls[k := p]) == Claims(polls) - Left(polls[k]) + Left(p)
  {
    hide Claims, Left;
    var a, b := polls[..k], polls[k + 1..];
    ClaimsSplit(a, b);
    ClaimsAround(a, polls[k], b);
    ClaimsAround(a, p, b);
    assert polls == a + ([polls[k]] + b) && polls[k := p] == a + ([p] + b);
  }

  lemma {:induction false} ClaimsBound(polls: seq<Poll>, limit: nat)
    requires forall p <- polls :: Left(p) <= limit
    ensures Claims(polls) <= limit * |polls|
  {
    if polls != [] {
      ClaimsBound(polls[1..], limit);
      assert limit * |polls| == limit + limit * (|polls| - 1);
    }
  }

  /** With `extra` mid-poll restarts behind it. */
  ghost predicate Chained(w: Worker, extra: nat) {
    && |w.timers| + |w.polls| <= 1 + extra
    && (!w.running ==> |w.timers| <= extra)
    && (w.pollTimer.Some? ==> |w.timers - {w.pollTimer.value}| <= extra)
    && (w.running ==> w.pollTimer.Some?)
    && (forall t <- w.timers :: t < w.nextTimer)
  }

  ghost predicate Bounded(c: Config, w: Worker, extra: nat) {
    && (forall p <- w.polls :: p.Dequeuing? ==> 1 <= p.left <= c.concurrency)
    && |w.active| + Claims(w.polls) <= c.concurrency * (1 + extra)
  }

  function Extra(w: Worker, e: Event, extra: nat): nat {
    if RestartsMidPoll(w, e) then extra + 1 else extra
  }

  lemma SmallerMap<V>(m: map<nat, V>, k: nat)
    ensures |m - {k}| <= |m| && (k in m ==> |m - {k}| == |m| - 1)
  {
  }

  lemma ScheduleKeepsChained(c: Config, w: Worker, extra: nat)
    requires w.running ==> |w.timers| <= extra && |w.timers| + |w.polls| <= extra
    requires !w.running ==> Chained(w, extra)
    requires forall t <- w.timers :: t < w.nextTimer
    ensures Chained(SchedulePoll(c, w), extra)
  {
  }

  lemma FireKeepsChained(c: Config, w: Worker, t: nat, extra: nat)
    requires Chained(w, extra)
    ensures Chained(BeginPoll(c, w, t), extra)
  {
    if t !in w.timers {
      return;
    }
    SmallerMap(w.timers, t);
    var v := w.(timers := w.timers - {t});
    if w.pollTimer.Some? {
      assert v.timers - {w.pollTimer.value} == (w.timers - {w.pollTimer.value}) - {t};
      SmallerMap(w.timers - {w.pollTimer.value}, t);
    }
    if w.running && |w.active| >= c.concurrency {
      ScheduleKeepsChained(c, v.(busy := 0), extra);
    }
  }

  lemma StopKeepsChained(w: Worker, extra: nat)
    requires Chained(w, extra)
    ensures Chained(StopWorker(w), extra)
  {
  }

  lemma RequeueKeepsChained(c: Config, w: Worker, k: nat, ok: bool, extra: nat)
    requires Chained(w, extra)
    ensures Chained(EndPoll(c, w, k, ok), extra)
  {
  }

  predicate TouchesPolling(e: Event) {
    e.Start? || e.Stop? || e.Fire? || e.Requeued?
  }

  ghost predicate SamePolling(w: Worker, v: Worker) {
    && v.timers == w.timers && v.pollTimer == w.pollTimer && v.nextTimer == w.nextTimer
    && |v.polls| == |w.polls| && v.running == w.running
  }

  predicate Processes(e: Event) {
    e.HandlerEnded? || e.CompleteAnswered? || e.FailAnswered?
  }

  // Such a step may take one job off the map; it aborts nothing and leaves the polling alone.
  ghost predicate MayFree(w: Worker, v: Worker) {
    && v.polls == w.polls && SamePolling(w, v) && v.aborted == w.aborted && v.busy == w.busy
    && (v.active == w.active || exists job :: v.active == w.active - {job})
  }

  lemma EndMayFree(w: Worker, pid: nat, frees: bool)
    requires pid in w.inFlight
    ensures MayFree(w, EndJob(w, pid, frees))
  {
    var v := EndJob(w, pid, frees);
    assert v.active == if frees then w.active - {w.inFlight[pid].job} else w.active;
  }

  lemma OnlyLogs(w: Worker, l: Log, v: Worker)
    requires MayFree(w.(log := l), v)
    ensures MayFree(w, v)
  {
  }

  lemma HandlerMayFree(w: Worker, pid: nat, end: HandlerEnd)
    ensures MayFree(w, HandlerDone(w, pid, end))
  {
    hide EndJob;
    if In(w, pid, Handling) && end == Throws(true) {
      var l := w.log.(dropped := w.log.dropped + {pid});
      EndMayFree(w.(log := l), pid, true);
      OnlyLogs(w, l, EndJob(w.(log := l), pid, true));
    }
  }

  lemma CompleteMayFree(w: Worker, pid: nat, reply: Reply)
    ensures MayFree(w, CompleteDone(w, pid, reply))
  {
    hide EndJob, Carried;
    if In(w, pid, Completing) {
      var l := Carried(w.log, Complete(pid), reply);
      var l1 := if reply.Accepted? then l.(accepted := l.accepted + {pid}) else l.(dropped := l.dropped + {pid});
      EndMayFree(w.(log := l1), pid, true);
      OnlyLogs(w, l1, EndJob(w.(log := l1), pid, true));
    }
  }

  lemma FailMayFree(w: Worker, pid: nat, reply: Reply)
    ensures MayFree(w, FailDone(w, pid, reply))
  {
    hide EndJob, Carried;
    if pid in w.inFlight && w.inFlight[pid].phase.Failing? {
      var l := Carried(w.log, Fail(pid), reply);
      var frees := w.inFlight[pid].phase.missing ==> reply.Accepted?;
      EndMayFree(w.(log := l), pid, frees);
      OnlyLogs(w, l, EndJob(w.(log := l), pid, frees));
    }
  }

  lemma ProcessingMayFree(c: Config, w: Worker, e: Event)
    requires Processes(e)
    ensures MayFree(w, Step(c, w, e))
  {
    hide HandlerDone, CompleteDone, FailDone, MayFree;
    match e
    case HandlerEnded(pid, end) => HandlerMayFree(w, pid, end);
    case CompleteAnswered(pid, reply) => CompleteMayFree(w, pid, reply);
    case FailAnswered(pid, reply) => FailMayFree(w, pid, reply);
  }

  lemma DequeueIsQuiet(w: Worker, k: nat, delivery: Option<Delivery>, isBusy: bool)
    ensures SamePolling(w, TakeJob(w, k, delivery)) && SamePolling(w, DequeueError(w, k, isBusy))
  {
    if Awaits(w, k) && delivery.Some? {
      var v := StartJob(w, delivery.value);
      assert SamePolling(w, v) && v.polls == w.polls;
      hide StartJob;
    }
  }

  lemma QuietStep(c: Config, w: Worker, e: Event)
    requires !TouchesPolling(e)
    ensures SamePolling(w, Step(c, w, e))
  {
    hide TakeJob, DequeueError;
    if Processes(e) {
      hide Step;
      ProcessingMayFree(c, w, e);
    } else {
      match e
      case Dequeued(k, delivery) => DequeueIsQuiet(w, k, delivery, true);
      case DequeueThrew(k, isBusy) => DequeueIsQuiet(w, k, None, isBusy);
      case GraceElapsed(stop) =>
    }
  }

  lemma StartKeepsChained(c: Config, w: Worker, extra: nat)
    requires Chained(w, extra)
    ensures Chained(StartWorker(c, w), Extra(w, Start, extra))
  {
    hide SchedulePoll;
    if !w.running {
      ScheduleKeepsChained(c, w.(running := true), Extra(w, Start, extra));
    }
  }

  lemma StepKeepsChained(c: Config, w: Worker, e: Event, extra: nat)
    requires Chained(w, extra)
    ensures Chained(Step(c, w, e), Extra(w, e, extra))
  {
    hide StartWorker, StopWorker, BeginPoll, TakeJob, DequeueError, EndPoll, GraceOver;
    if TouchesPolling(e) {
      hide Chained;
      match e
      case Start => StartKeepsChained(c, w, extra);
      case Stop => StopKeepsChained(w, extra);
      case Fire(t) => FireKeepsChained(c, w, t, extra);
      case Requeued(k, ok) => RequeueKeepsChained(c, w, k, ok, extra);
    } else {
      hide Step;
      QuietStep(c, w, e);
    }
  }

  lemma GrownMap<V>(m: map<Job, V>, k: Job, v: V)
    ensures |m[k := v]| == if k in m then |m| else |m| + 1
  {
  }

  lemma TakeShape(w: Worker, k: nat, delivery: Option<Delivery>)
    requires Awaits(w, k)
    ensures var p := w.polls[k]; var v := TakeJob(w, k, delivery);
      && v.active == (if delivery.Some? then w.active[delivery.value.job := w.nextPid] else w.active)
      && v.polls == w.polls[k := if delivery.None? || p.left <= 1 then Requeueing else Dequeuing(p.left - 1, p.got + 1)]
  {
    if delivery.Some? {
      var v := StartJob(w, delivery.value);
      assert v.active == w.active[delivery.value.job := w.nextPid] && v.polls == w.polls;
      hide StartJob;
    }
  }

  lemma TakeKeepsBounded(c: Config, w: Worker, k: nat, delivery: Option<Delivery>, extra: nat)
    requires Bounded(c, w, extra)
    ensures Bounded(c, TakeJob(w, k, delivery), extra)
  {
    if Awaits(w, k) {
      TakeShape(w, k, delivery);
      hide TakeJob, Claims;
      ClaimsAt(w.polls, k, TakeJob(w, k, delivery).polls[k]);
      if delivery.Some? {
        GrownMap(w.active, delivery.value.job, w.nextPid);
      }
    }
  }

  lemma FireShape(c: Config, w: Worker, t: nat)
    ensures var v := BeginPoll(c, w, t);
      && v.active == w.active
      && v.polls == if t in w.timers && w.running && |w.active| < c.concurrency
                    then w.polls + [Dequeuing(c.concurrency - |w.active|, 0)] else w.polls
  {
  }

  lemma FireKeepsBounded(c: Config, w: Worker, t: nat, extra: nat)
    requires Chained(w, extra) && Bounded(c, w, extra)
    ensures Bounded(c, BeginPoll(c, w, t), extra)
  {
    FireShape(c, w, t);
    if t in w.timers && w.running && |w.active| < c.concurrency {
      RoomForOnePoll(c, w, t, extra);
      var p := Dequeuing(c.concurrency - |w.active|, 0);
      hide Claims, BeginPoll, Chained;
      ClaimsSplit(w.polls, [p]);
      ClaimsOne(p);
    } else {
      hide Claims, BeginPoll, Chained;
    }
  }

  lemma ClaimsOne(p: Poll)
    ensures Claims([p]) == Left(p)
  {
  }

  lemma RoomForOnePoll(c: Config, w: Worker, t: nat, extra: nat)
    requires Chained(w, extra) && Bounded(c, w, extra) && t in w.timers
    ensures Claims(w.polls) + c.concurrency <= c.concurrency * (1 + extra)
  {
    SmallerMap(w.timers, t);
    ClaimsBound(w.polls, c.concurrency);
    MulMonotone(c.concurrency, |w.polls|, extra);
  }

  lemma MulMonotone(c: nat, m: nat, extra: nat)
    requires m <= extra
    ensures c * m + c <= c * (1 + extra)
  {
  }

  lemma ShrunkMap<V>(m: map<Job, V>, k: Job)
    ensures |m - {k}| <= |m|
  {
  }

  lemma FreeingKeepsBounded(c: Config, w: Worker, v: Worker, extra: nat)
    requires Bounded(c, w, extra) && MayFree(w, v)
    ensures Bounded(c, v, extra)
  {
    hide Claims;
    if v.active != w.active {
      var job :| v.active == w.active - {job};
      ShrunkMap(w.active, job);
    }
  }

  lemma LeaveKeepsBounded(c: Config, w: Worker, k: nat, isBusy: bool, ok: bool, extra: nat)
    requires Bounded(c, w, extra)
    ensures Bounded(c, DequeueError(w, k, isBusy), extra)
    ensures Bounded(c, EndPoll(c, w, k, ok), extra)
  {
    hide PollDelay;
    if k < |w.polls| {
      ClaimsAt(w.polls, k, Requeueing);
    }
  }

  lemma SwitchKeepsBounded(c: Config, w: Worker, stop: nat, extra: nat)
    requires Bounded(c, w, extra)
    ensures Bounded(c, StartWorker(c, w), extra) && Bounded(c, StartWorker(c, w), extra + 1)
    ensures Bounded(c, StopWorker(w), extra) && Bounded(c, GraceOver(w, stop), extra)
  {
    MulMonotone(c.concurrency, extra, extra + 1);
    MulMonotone(c.concurrency, extra + 1, extra + 1);
  }

  lemma StepKeepsBounded(c: Config, w: Worker, e: Event, extra: nat)
    requires Chained(w, extra) && Bounded(c, w, extra)
    ensures Bounded(c, Step(c, w, e), Extra(w, e, extra))
  {
    hide Chained, Bounded;
    hide StartWorker, StopWorker, BeginPoll, TakeJob, DequeueError, EndPoll, GraceOver;
    if Processes(e) {
      hide Step, MayFree;
      ProcessingMayFree(c, w, e);
      FreeingKeepsBounded(c, w, Step(c, w, e), extra);
    } else {
      match e
      case Start => SwitchKeepsBounded(c, w, 0, extra);
      case Fire(t) => FireKeepsBounded(c, w, t, extra);
      case Dequeued(k, delivery) => TakeKeepsBounded(c, w, k, delivery, extra);
      case DequeueThrew(k, isBusy) => LeaveKeepsBounded(c, w, k, isBusy, true, extra);
      case Requeued(k, ok) => LeaveKeepsBounded(c, w, k, true, ok, extra);
      case Stop => SwitchKeepsBounded(c, w, 0, extra);
      case GraceElapsed(stop) => SwitchKeepsBounded(c, w, stop, extra);
    }
  }

  lemma {:induction false} RunKeepsBounded(c: Config, w: Worker, es: seq<Event>, extra: nat)
    requires Chained(w, extra) && Bounded(c, w, extra)
    ensures Chained(Run(c, w, es), extra + Restarts(c, w, es))
    ensures Bounded(c, Run(c, w, es), extra + Restarts(c, w, es))
    decreases |es|
  {
    hide Chained, Bounded, Step;
    if es != [] {
      StepKeepsChained(c, w, es[0], extra);
      StepKeepsBounded(c, w, es[0], extra);
      RunKeepsBounded(c, Step(c, w, es[0]), es[1..], Extra(w, es[0], extra));
    }
  }

  /**
    In every interleaving the job map holds at most `concurrency` jobs for each poll chain: one
    chain to begin with, and one more for each start that came while a stopped poll was suspended.
   */
  lemma ActiveIsBounded(c: Config, es: seq<Event>)
    ensures |Run(c, IDLE, es).active| <= c.concurrency * (1 + Restarts(c, IDLE, es))
  {
    hide Run, Restarts;
    assert Chained(IDLE, 0) && Bounded(c, IDLE, 0);
    RunKeepsBounded(c, IDLE, es, 0);
  }

  // ---- The bound is reached ------------------------------------------------------------------

  lemma {:induction false} RunSplit(c: Config, w: Worker, a: seq<Event>, b: seq<Event>)
    ensures Run(c, w, a + b) == Run(c, Run(c, w, a), b)
    ensures Restarts(c, w, a + b) == Restarts(c, w, a) + Restarts(c, Run(c, w, a), b)
    decreases |a|
  {
    hide Step;
    if a == [] {
      assert a + b == b;
    } else {
      assert (a + b)[1..] == a[1..] + b;
      RunSplit(c, Step(c, w, a[0]), a[1..], b);
    }
  }

  /** One poll taking the `n` jobs from `first` on. */
  function Takes(k: nat, first: Job, n: nat): seq<Event>
    decreases n
  {
    if n == 0 then [] else [Dequeued(k, Some(Delivery(first, Runnable)))] + Takes(k, first + 1, n - 1)
  }

  // `v` differs from `w` by `n` more jobs, all below `next`, and in poll `k` only.
  ghost predicate Filled(w: Worker, v: Worker, k: nat, n: nat, next: Job) {
    && |v.active| == |w.active| + n && (forall j <- v.active :: j < next)
    && |v.polls| == |w.polls| && forall i | 0 <= i < |w.polls| && i != k :: v.polls[i] == w.polls[i]
  }

  lemma PollTakesOne(w: Worker, k: nat, job: Job)
    requires Awaits(w, k) && forall j <- w.active :: j < job
    ensures var v := TakeJob(w, k, Some(Delivery(job, Runnable)));
      && Filled(w, v, k, 1, job + 1)
      && (w.polls[k].left > 1 ==> Awaits(v, k) && v.polls[k].left == w.polls[k].left - 1)
  {
    TakeShape(w, k, Some(Delivery(job, Runnable)));
    hide TakeJob;
    GrownMap(w.active, job, w.nextPid);
  }

  lemma {:induction false} PollFills(c: Config, w: Worker, k: nat, first: Job, n: nat)
    requires Awaits(w, k) && w.polls[k].left == n > 0
    requires forall j <- w.active :: j < first
    ensures Filled(w, Run(c, w, Takes(k, first, n)), k, n, first + n)
    ensures Restarts(c, w, Takes(k, first, n)) == 0
    decreases n
  {
    hide TakeJob;
    var d := Delivery(first, Runnable);
    var v := TakeJob(w, k, Some(d));
    PollTakesOne(w, k, first);
    var es := Takes(k, first, n);
    assert es[0] == Dequeued(k, Some(d)) && es[1..] == Takes(k, first + 1, n - 1);
    assert Step(c, w, es[0]) == v;
    if n > 1 {
      PollFills(c, v, k, first + 1, n - 1);
    } else {
      assert es[1..] == [];
    }
  }

  function MidPollRestart(c: Config): (w: Worker)
    requires c.concurrency > 0
  {
    IDLE.(running := true, pollTimer := Some(1), nextTimer := 2, stops := [Returned],
          polls := [Dequeuing(c.concurrency, 0), Dequeuing(c.concurrency, 0)])
  }

  const RESTART: seq<Event> := [Start, Fire(0), Stop, Start, Fire(1)]

  lemma ReachMidPollRestart(c: Config)
    requires c.concurrency > 0
    ensures Run(c, IDLE, RESTART) == MidPollRestart(c) && Restarts(c, IDLE, RESTART) == 1
  {
    var w1 := IDLE.(running := true, timers := map[0 := c.interval], pollTimer := Some(0), nextTimer := 1);
    var w2 := w1.(timers := map[], polls := [Dequeuing(c.concurrency, 0)]);
    var w3 := w2.(running := false, pollTimer := None, stops := [Returned]);
    var w4 := w3.(running := true, timers := map[1 := c.interval], pollTimer := Some(1), nextTimer := 2);
    assert Step(c, IDLE, Start) == w1;
    assert Step(c, w1, Fire(0)) == w2;
    assert Step(c, w2, Stop) == w3;
    assert Step(c, w3, Start) == w4;
    assert Step(c, w4, Fire(1)) == MidPollRestart(c);
    hide Step;
    assert RESTART[1..] == [Fire(0), Stop, Start, Fire(1)];
    assert RESTART[1..][1..] == [Stop, Start, Fire(1)];
    assert RESTART[1..][1..][1..] == [Start, Fire(1)];
    assert RESTART[1..][1..][1..][1..] == [Fire(1)];
    assert RESTART[1..][1..][1..][1..][1..] == [];
  }

  /** For every concurrency, one start in the middle of a poll is enough to run twice as many jobs. */
  lemma RestartDoublesConcurrency(c: Config) returns (es: seq<Event>)
    ensures Restarts(c, IDLE, es) <= 1 && |Run(c, IDLE, es).active| == 2 * c.concurrency
  {
    if c.concurrency == 0 {
      return [];
    }
    hide Run, Restarts, Step, TakeJob, Takes;
    var n := c.concurrency;
    var w := MidPollRestart(c);
    ReachMidPollRestart(c);
    PollFills(c, w, 0, 0, n);
    var v := Run(c, w, Takes(0, 0, n));
    PollFills(c, v, 1, n, n);
    RunSplit(c, w, Takes(0, 0, n), Takes(1, n, n));
    es := RESTART + (Takes(0, 0, n) + Takes(1, n, n));
    RunSplit(c, IDLE, RESTART, Takes(0, 0, n) + Takes(1, n, n));
  }

  /** `concurrency` is respected by every run with at most `r` such starts exactly when there are none. */
  lemma ConcurrencyHoldsIff(c: Config, r: nat)
    ensures (forall es | Restarts(c, IDLE, es) <= r :: |Run(c, IDLE, es).active| <= c.concurrency)
       <==> r == 0 || c.concurrency == 0
  {
    hide Run, Restarts;
    forall es {
      ActiveIsBounded(c, es);
    }
    var doubled := RestartDoublesConcurrency(c);
    assert r > 0 ==> Restarts(c, IDLE, doubled) <= r;
  }
}
