/** What the processings of the job worker ask of the queue, and how the job map follows them, in every interleaving. */
module WorkerJobs {
  import opened Wrappers
  import opened JobWorker
  import WorkerRuns

  // What the steps leave alone.
  predicate SameJobs(w: Worker, v: Worker) {
    v.inFlight == w.inFlight && v.log == w.log && v.active == w.active && v.nextPid == w.nextPid
  }

  lemma SwitchKeepsJobs(c: Config, w: Worker, stop: nat)
    ensures SameJobs(w, StartWorker(c, w)) && SameJobs(w, StopWorker(w)) && SameJobs(w, GraceOver(w, stop))
  {
  }

  lemma PollKeepsJobs(c: Config, w: Worker, k: nat, flag: bool)
    ensures SameJobs(w, DequeueError(w, k, flag)) && SameJobs(w, EndPoll(c, w, k, flag))
        && SameJobs(w, BeginPoll(c, w, k))
  {
    hide PollDelay;
  }

  predicate TouchesJobs(e: Event) {
    e.Dequeued? || e.HandlerEnded? || e.CompleteAnswered? || e.FailAnswered?
  }

  lemma JobsUnchanged(c: Config, w: Worker, e: Event)
    requires !TouchesJobs(e)
    ensures SameJobs(w, Step(c, w, e))
  {
    hide StartWorker, StopWorker, BeginPoll, DequeueError, EndPoll, GraceOver, SameJobs;
    match e
    case Start => SwitchKeepsJobs(c, w, 0);
    case Stop => SwitchKeepsJobs(c, w, 0);
    case GraceElapsed(stop) => SwitchKeepsJobs(c, w, stop);
    case Fire(t) => PollKeepsJobs(c, w, t, true);
    case DequeueThrew(k, isBusy) => PollKeepsJobs(c, w, k, isBusy);
    case Requeued(k, ok) => PollKeepsJobs(c, w, k, ok);
  }

  // ---- What a processing asks of the queue ---------------------------------------------------

  /** What the log says of one processing. */
  datatype Account = Account(completes: nat, fails: nat, completed: nat, failed: nat, freed: nat,
                             troubled: bool, refused: bool, accepted: bool, dropped: bool)

  const NOTHING: Account := Account(0, 0, 0, 0, 0, false, false, false, false)

  function AccountOf(l: Log, pid: nat): Account {
    Account(l.calls[Complete(pid)], l.calls[Fail(pid)], l.applied[Complete(pid)], l.applied[Fail(pid)], l.freed[pid],
            pid in l.troubled, pid in l.refused, pid in l.accepted, pid in l.dropped)
  }

  datatype Status = Unborn | Live(phase: Phase) | Over

  function StatusOf(w: Worker, pid: nat): Status {
    if pid in w.inFlight then Live(w.inFlight[pid].phase) else if pid < w.nextPid then Over else Unborn
  }

  predicate ExactlyOne(a: bool, b: bool, c: bool) {
    (a || b || c) && !(a && b) && !(a && c) && !(b && c)
  }

  /** What may have been asked of the queue for a processing in that status. */
  predicate Proper(a: Account, st: Status) {
    match st
    case Unborn => a == NOTHING
    case Live(Handling) => a == NOTHING
    case Live(Completing) => a == NOTHING.(completes := 1)
    case Live(Failing(missing)) =>
      || a == NOTHING.(fails := 1, troubled := true)
      || (!missing && a.completed <= 1
          && a == NOTHING.(fails := 1, completes := 1, completed := a.completed, refused := true))
    case Over =>
      && a.completes <= 1 && a.fails <= 1 && a.completed <= a.completes && a.failed <= a.fails && a.freed <= 1
      && ExactlyOne(a.accepted, a.fails == 1, a.dropped)
      && (a.fails == 1 <==> a.troubled || a.refused) && !(a.troubled && a.refused)
      && (a.troubled ==> a.completes == 0) && (a.refused || a.accepted ==> a.completes == 1)
      && (a.accepted ==> a.completed == 1)
      && (a.freed == 0 ==> a.troubled)
  }

  ghost predicate Audited(w: Worker) {
    && (forall pid: nat :: Proper(AccountOf(w.log, pid), StatusOf(w, pid)))
    && (forall pid <- w.inFlight :: pid < w.nextPid)
  }

  // Everyone's account and status but one stay as they are.
  ghost predicate OnlyOne(w: Worker, v: Worker, pid: nat) {
    forall q: nat | q != pid :: AccountOf(v.log, q) == AccountOf(w.log, q) && StatusOf(v, q) == StatusOf(w, q)
  }

  lemma AuditOne(w: Worker, v: Worker, pid: nat)
    requires Audited(w) && OnlyOne(w, v, pid) && Proper(AccountOf(v.log, pid), StatusOf(v, pid))
    requires v.nextPid >= w.nextPid > pid || v.nextPid > pid >= w.nextPid
    requires v.inFlight.Keys <= w.inFlight.Keys + {pid}
    ensures Audited(v)
  {
    hide Proper, AccountOf, StatusOf;
    forall q: nat ensures Proper(AccountOf(v.log, q), StatusOf(v, q)) {
      assert Proper(AccountOf(w.log, q), StatusOf(w, q));
    }
  }

  lemma CallFailAccount(w: Worker, pid: nat, missing: bool)
    requires pid in w.inFlight && pid < w.nextPid
    ensures var v := CallFail(w, pid, missing);
      && OnlyOne(w, v, pid) && StatusOf(v, pid) == Live(Failing(missing))
      && var a := AccountOf(w.log, pid); AccountOf(v.log, pid) == a.(fails := a.fails + 1)
  {
  }

  lemma EndJobAccount(w: Worker, pid: nat, frees: bool)
    requires pid in w.inFlight && pid < w.nextPid
    ensures var v := EndJob(w, pid, frees);
      && OnlyOne(w, v, pid) && StatusOf(v, pid) == Over
      && var a := AccountOf(w.log, pid); AccountOf(v.log, pid) == a.(freed := if frees then a.freed + 1 else a.freed)
  {
    var v := EndJob(w, pid, frees);
    assert v.inFlight == w.inFlight - {pid} && v.nextPid == w.nextPid;
    assert v.log == if frees then w.log.(freed := w.log.freed + multiset{pid}) else w.log;
    hide EndJob;
  }

  lemma OnlyOneTrans(u: Worker, v: Worker, w: Worker, pid: nat)
    requires OnlyOne(u, v, pid) && OnlyOne(v, w, pid)
    ensures OnlyOne(u, w, pid)
  {
    hide AccountOf, StatusOf;
  }

  // A processing that has just entered the map.
  function Entered(w: Worker, d: Delivery): Worker {
    w.(active := w.active[d.job := w.nextPid], nextPid := w.nextPid + 1,
       inFlight := w.inFlight[w.nextPid := Processing(d.job, Handling)])
  }

  lemma EnteredKeepsAudited(w: Worker, d: Delivery)
    requires Audited(w)
    ensures Audited(Entered(w, d)) && AccountOf(w.log, w.nextPid) == NOTHING
  {
    assert Proper(AccountOf(w.log, w.nextPid), StatusOf(w, w.nextPid));
    AuditOne(w, Entered(w, d), w.nextPid);
  }

  lemma LivePids(w: Worker, pid: nat)
    requires Audited(w) && pid in w.inFlight
    ensures Proper(AccountOf(w.log, pid), Live(w.inFlight[pid].phase))
  {
    assert Proper(AccountOf(w.log, pid), StatusOf(w, pid));
  }

  // The log `l` differs from the worker's in this processing only.
  ghost predicate LogsOnly(w: Worker, l: Log, pid: nat) {
    forall q: nat | q != pid :: AccountOf(l, q) == AccountOf(w.log, q)
  }

  lemma EndJobKeys(w: Worker, pid: nat, frees: bool)
    requires pid in w.inFlight
    ensures var v := EndJob(w, pid, frees);
      && v.nextPid == w.nextPid && v.inFlight == w.inFlight - {pid} && v.log.applied == w.log.applied
      && v.active == (if frees then w.active - {w.inFlight[pid].job} else w.active)
  {
  }

  lemma EndKeepsAudited(w: Worker, l: Log, pid: nat, frees: bool)
    requires Audited(w) && pid in w.inFlight && LogsOnly(w, l, pid)
    requires var a := AccountOf(l, pid); Proper(a.(freed := if frees then a.freed + 1 else a.freed), Over)
    ensures Audited(EndJob(w.(log := l), pid, frees))
  {
    var u := w.(log := l);
    var v := EndJob(u, pid, frees);
    assert v.nextPid == w.nextPid && v.inFlight == w.inFlight - {pid};
    EndJobAccount(u, pid, frees);
    hide Proper, AccountOf, EndJob;
    assert OnlyOne(w, u, pid);
    OnlyOneTrans(w, u, v, pid);
    AuditOne(w, v, pid);
  }

  lemma FailCallKeepsAudited(w: Worker, l: Log, pid: nat, missing: bool)
    requires Audited(w) && pid in w.inFlight && LogsOnly(w, l, pid)
    requires var a := AccountOf(l, pid); Proper(a.(fails := a.fails + 1), Live(Failing(missing)))
    ensures Audited(CallFail(w.(log := l), pid, missing))
  {
    var u := w.(log := l);
    var v := CallFail(u, pid, missing);
    assert v.nextPid == w.nextPid && v.inFlight.Keys == w.inFlight.Keys;
    CallFailAccount(u, pid, missing);
    hide Proper, AccountOf, CallFail;
    assert OnlyOne(w, u, pid);
    OnlyOneTrans(w, u, v, pid);
    AuditOne(w, v, pid);
  }

  lemma HandlerKeepsAudited(w: Worker, pid: nat, end: HandlerEnd)
    requires Audited(w)
    ensures Audited(HandlerDone(w, pid, end))
  {
    if In(w, pid, Handling) {
      LivePids(w, pid);
      hide EndJob, CallFail, Audited;
      match end
      case Returns => ReturnKeepsAudited(w, pid);
      case Throws(true) => EndKeepsAudited(w, w.log.(dropped := w.log.dropped + {pid}), pid, true);
      case Throws(false) => FailCallKeepsAudited(w, w.log.(troubled := w.log.troubled + {pid}), pid, false);
    }
  }

  lemma StartKeepsAudited(w: Worker, d: Delivery)
    requires Audited(w)
    ensures Audited(StartJob(w, d))
  {
    var pid, v := w.nextPid, Entered(w, d);
    EnteredKeepsAudited(w, d);
    if !d.kind.Runnable? {
      hide CallFail, Audited;
      FailCallKeepsAudited(v, w.log.(troubled := w.log.troubled + {pid}), pid, d.kind.NoHandler?);
    }
  }

  lemma ReturnKeepsAudited(w: Worker, pid: nat)
    requires Audited(w) && In(w, pid, Handling)
    ensures Audited(HandlerDone(w, pid, Returns))
  {
    var v := HandlerDone(w, pid, Returns);
    LivePids(w, pid);
    assert OnlyOne(w, v, pid);
    hide OnlyOne;
    AuditOne(w, v, pid);
  }

  lemma CompleteKeepsAudited(w: Worker, pid: nat, reply: Reply)
    requires Audited(w)
    ensures Audited(CompleteDone(w, pid, reply))
  {
    if In(w, pid, Completing) {
      LivePids(w, pid);
      var l := Carried(w.log, Complete(pid), reply);
      assert LogsOnly(w, l, pid) && AccountOf(l, pid).(completed := 0) == NOTHING.(completes := 1);
      assert AccountOf(l, pid).completed <= 1 && (reply.Accepted? ==> AccountOf(l, pid).completed == 1);
      hide EndJob, CallFail, Audited, Carried;
      match reply
      case Accepted => EndKeepsAudited(w, l.(accepted := l.accepted + {pid}), pid, true);
      case Rejected(_, true) => EndKeepsAudited(w, l.(dropped := l.dropped + {pid}), pid, true);
      case Rejected(_, false) => FailCallKeepsAudited(w, l.(refused := l.refused + {pid}), pid, false);
    }
  }

  lemma FailKeepsAudited(w: Worker, pid: nat, reply: Reply)
    requires Audited(w)
    ensures Audited(FailDone(w, pid, reply))
  {
    if pid in w.inFlight && w.inFlight[pid].phase.Failing? {
      LivePids(w, pid);
      hide EndJob, Audited;
      var frees := w.inFlight[pid].phase.missing ==> reply.Accepted?;
      EndKeepsAudited(w, Carried(w.log, Fail(pid), reply), pid, frees);
    }
  }

  lemma TakeKeepsAudited(w: Worker, k: nat, delivery: Option<Delivery>)
    requires Audited(w)
    ensures Audited(TakeJob(w, k, delivery))
  {
    if Awaits(w, k) {
      var u := if delivery.Some? then StartJob(w, delivery.value) else w;
      if delivery.Some? {
        StartKeepsAudited(w, delivery.value);
      }
      var v := TakeJob(w, k, delivery);
      assert v.inFlight == u.inFlight && v.nextPid == u.nextPid && v.log == u.log;
      hide TakeJob, StartJob, Proper, AccountOf;
      SameJobsAudited(u, v);
    }
  }

  lemma SameJobsAudited(u: Worker, v: Worker)
    requires Audited(u) && v.inFlight == u.inFlight && v.nextPid == u.nextPid && v.log == u.log
    ensures Audited(v)
  {
    hide Proper, AccountOf;
    forall pid: nat ensures Proper(AccountOf(v.log, pid), StatusOf(v, pid)) {
      assert Proper(AccountOf(u.log, pid), StatusOf(u, pid));
    }
  }

  lemma StepKeepsAudited(c: Config, w: Worker, e: Event)
    requires Audited(w)
    ensures Audited(Step(c, w, e))
  {
    hide Audited, TakeJob, HandlerDone, CompleteDone, FailDone;
    if TouchesJobs(e) {
      match e
      case Dequeued(k, delivery) => TakeKeepsAudited(w, k, delivery);
      case HandlerEnded(pid, end) => HandlerKeepsAudited(w, pid, end);
      case CompleteAnswered(pid, reply) => CompleteKeepsAudited(w, pid, reply);
      case FailAnswered(pid, reply) => FailKeepsAudited(w, pid, reply);
    } else {
      hide Step;
      JobsUnchanged(c, w, e);
      SameJobsAudited(w, Step(c, w, e));
    }
  }

  lemma {:induction false} RunKeepsAudited(c: Config, w: Worker, es: seq<Event>)
    requires Audited(w)
    ensures Audited(Run(c, w, es))
    decreases |es|
  {
    hide Step, Audited;
    if es != [] {
      StepKeepsAudited(c, w, es[0]);
      RunKeepsAudited(c, Step(c, w, es[0]), es[1..]);
    }
  }

  /**
    In every interleaving: at most one `complete` and one `fail` are called for a processing and its
    slot is given back at most once; `fail` is called exactly when the handler was missing or failed
    or `complete` was refused; and a processing that is over ended in exactly one of an accepted
    `complete`, a call of `fail`, or an AbortError.  Only after a refused `complete` can the queue
    hold the job both completed and failed, and only a missing handler can cost a slot.
   */
  lemma EveryJobIsSettledOnce(c: Config, es: seq<Event>, pid: nat)
    ensures var w := Run(c, IDLE, es); var l := w.log;
      && l.calls[Complete(pid)] <= 1 && l.calls[Fail(pid)] <= 1 && l.freed[pid] <= 1
      && (Fail(pid) in l.calls <==> pid in l.troubled || pid in l.refused)
      && (pid < w.nextPid && pid !in w.inFlight ==>
            ExactlyOne(pid in l.accepted, Fail(pid) in l.calls, pid in l.dropped))
      && (Complete(pid) in l.applied && Fail(pid) in l.applied ==> pid in l.refused)
      && (pid < w.nextPid && pid !in w.inFlight && pid !in l.freed ==> pid in l.troubled)
  {
    assert Audited(IDLE);
    RunKeepsAudited(c, IDLE, es);
    hide Run;
    var w := Run(c, IDLE, es);
    assert Proper(AccountOf(w.log, pid), StatusOf(w, pid));
  }

  predicate TakesEffect(reply: Reply) {
    reply.Accepted? || reply.applied
  }

  /** At this step the queue's answer to the call comes in, and the call took effect there. */
  predicate CarriesOut(w: Worker, e: Event, call: Call) {
    match call
    case Complete(pid) => e.CompleteAnswered? && e.pid == pid && In(w, pid, Completing) && TakesEffect(e.reply)
    case Fail(pid) =>
      e.FailAnswered? && e.pid == pid && pid in w.inFlight && w.inFlight[pid].phase.Failing? && TakesEffect(e.reply)
  }

  ghost predicate CarriedOutAt(c: Config, es: seq<Event>, i: nat, call: Call) {
    i < |es| && CarriesOut(Run(c, IDLE, es[..i]), es[i], call)
  }

  lemma CompleteApplies(w: Worker, pid: nat, reply: Reply)
    ensures CompleteDone(w, pid, reply).log.applied ==
      if In(w, pid, Completing) then Carried(w.log, Complete(pid), reply).applied else w.log.applied
    ensures In(w, pid, Completing) && (reply.Accepted? || reply.abortError) ==>
              pid !in CompleteDone(w, pid, reply).inFlight
  {
    if In(w, pid, Completing) {
      hide CheckShutdown, Carried;
      var l := Carried(w.log, Complete(pid), reply);
      match reply
      case Accepted => EndJobKeys(w.(log := l.(accepted := l.accepted + {pid})), pid, true);
      case Rejected(_, true) => EndJobKeys(w.(log := l.(dropped := l.dropped + {pid})), pid, true);
      case Rejected(_, false) =>
    }
  }

  lemma FailApplies(w: Worker, pid: nat, reply: Reply)
    ensures FailDone(w, pid, reply).log.applied ==
      if pid in w.inFlight && w.inFlight[pid].phase.Failing? then Carried(w.log, Fail(pid), reply).applied
      else w.log.applied
    ensures pid in w.inFlight && w.inFlight[pid].phase.Failing? ==> pid !in FailDone(w, pid, reply).inFlight
  {
    if pid in w.inFlight && w.inFlight[pid].phase.Failing? {
      hide EndJob, Carried;
      EndJobKeys(w.(log := Carried(w.log, Fail(pid), reply)), pid, w.inFlight[pid].phase.missing ==> reply.Accepted?);
    }
  }

  lemma TakeAndHandlerApplyNothing(w: Worker, k: nat, delivery: Option<Delivery>, pid: nat, end: HandlerEnd)
    ensures TakeJob(w, k, delivery).log.applied == w.log.applied
    ensures HandlerDone(w, pid, end).log.applied == w.log.applied
  {
    if In(w, pid, Handling) && end == Throws(true) {
      EndJobKeys(w.(log := w.log.(dropped := w.log.dropped + {pid})), pid, true);
    }
    hide EndJob;
  }

  lemma AppliedStep(c: Config, w: Worker, e: Event, call: Call)
    ensures call in Step(c, w, e).log.applied <==> call in w.log.applied || CarriesOut(w, e, call)
  {
    hide TakeJob, HandlerDone, CompleteDone, FailDone;
    if TouchesJobs(e) {
      match e
      case Dequeued(k, delivery) => TakeAndHandlerApplyNothing(w, k, delivery, 0, Returns);
      case HandlerEnded(pid, end) => TakeAndHandlerApplyNothing(w, 0, None, pid, end);
      case CompleteAnswered(pid, reply) => CompleteApplies(w, pid, reply);
      case FailAnswered(pid, reply) => FailApplies(w, pid, reply);
    } else {
      hide Step;
      JobsUnchanged(c, w, e);
    }
  }

  lemma RunUpTo(c: Config, es: seq<Event>, i: nat)
    requires i < |es|
    ensures Run(c, IDLE, es[..i + 1]) == Step(c, Run(c, IDLE, es[..i]), es[i])
  {
    var w := Run(c, IDLE, es[..i]);
    WorkerRuns.RunSplit(c, IDLE, es[..i], [es[i]]);
    assert es[..i + 1] == es[..i] + [es[i]];
    hide Step;
    assert [es[i]][1..] == [] && Run(c, w, [es[i]]) == Run(c, Step(c, w, es[i]), []);
  }

  ghost predicate EverCarriedOut(c: Config, es: seq<Event>, n: nat, call: Call) {
    exists i: nat :: i < n && CarriedOutAt(c, es, i, call)
  }

  lemma EverCarriedOutNext(c: Config, es: seq<Event>, n: nat, call: Call)
    ensures EverCarriedOut(c, es, n + 1, call) <==> EverCarriedOut(c, es, n, call) || CarriedOutAt(c, es, n, call)
    ensures !EverCarriedOut(c, es, 0, call)
  {
    hide CarriedOutAt;
  }

  lemma {:induction false} AppliedIff(c: Config, es: seq<Event>, n: nat, call: Call)
    requires n <= |es|
    ensures call in Run(c, IDLE, es[..n]).log.applied <==> EverCarriedOut(c, es, n, call)
  {
    EverCarriedOutNext(c, es, if n > 0 then n - 1 else 0, call);
    if n > 0 {
      var w := Run(c, IDLE, es[..n - 1]);
      assert CarriedOutAt(c, es, n - 1, call) <==> CarriesOut(w, es[n - 1], call);
      RunUpTo(c, es, n - 1);
      hide Run, Step, CarriesOut, EverCarriedOut, CarriedOutAt;
      AppliedIff(c, es, n - 1, call);
      AppliedStep(c, w, es[n - 1], call);
    } else {
      hide EverCarriedOut;
    }
  }

  predicate IsOver(w: Worker, pid: nat) {
    pid < w.nextPid && pid !in w.inFlight
  }

  lemma StepKeepsOver(c: Config, w: Worker, e: Event, pid: nat)
    requires IsOver(w, pid)
    ensures IsOver(Step(c, w, e), pid)
  {
    hide TakeJob, HandlerDone, CompleteDone, FailDone;
    if e.Dequeued? {
      TakeKeepsOver(w, e.poll, e.delivery, pid);
    } else if WorkerRuns.Processes(e) {
      hide Step;
      ProcessingAdvances(c, w, e);
    } else {
      hide Step;
      JobsUnchanged(c, w, e);
    }
  }

  lemma TakeKeepsOver(w: Worker, k: nat, delivery: Option<Delivery>, pid: nat)
    requires IsOver(w, pid)
    ensures IsOver(TakeJob(w, k, delivery), pid)
  {
    if Awaits(w, k) {
      TakeRecords(w, k, delivery);
      if delivery.Some? {
        StartShape(w, delivery.value);
      }
      hide TakeJob, StartJob;
    }
  }

  lemma {:induction false} RunKeepsOver(c: Config, es: seq<Event>, m: nat, n: nat, pid: nat)
    requires m <= n <= |es| && IsOver(Run(c, IDLE, es[..m]), pid)
    ensures IsOver(Run(c, IDLE, es[..n]), pid)
  {
    if m < n {
      hide Run, Step;
      RunKeepsOver(c, es, m, n - 1, pid);
      RunUpTo(c, es, n - 1);
      StepKeepsOver(c, Run(c, IDLE, es[..n - 1]), es[n - 1], pid);
    }
  }

  /** An answer to `fail` ends its processing, and one to `complete` unless it is a plain refusal. */
  lemma AnswerEnds(c: Config, w: Worker, e: Event, call: Call)
    requires Audited(w) && CarriesOut(w, e, call)
    requires call.Complete? ==> e.reply != Rejected(true, false)
    ensures IsOver(Step(c, w, e), call.pid)
  {
    assert call.pid < w.nextPid;
    hide Audited;
    ProcessingAdvances(c, w, e);
    CompleteApplies(w, call.pid, e.reply);
    FailApplies(w, call.pid, e.reply);
    hide CompleteDone, FailDone;
  }

  lemma OverAfter(c: Config, es: seq<Event>, i: nat, n: nat, call: Call)
    requires CarriedOutAt(c, es, i, call) && i < n <= |es|
    requires call.Complete? ==> es[i].reply != Rejected(true, false)
    ensures IsOver(Run(c, IDLE, es[..n]), call.pid)
  {
    assert Audited(IDLE);
    hide Run, Step, CarriesOut, IsOver, Audited;
    RunKeepsAudited(c, IDLE, es[..i]);
    RunUpTo(c, es, i);
    AnswerEnds(c, Run(c, IDLE, es[..i]), es[i], call);
    RunKeepsOver(c, es, i + 1, n, call.pid);
  }

  /**
    In every interleaving: the queue holds a job both completed and failed by one processing exactly
    when its `complete` took effect but was answered with an error other than an AbortError, and the
    `fail` called thereupon took effect later, whatever came in between.
   */
  lemma DoubleBookedIff(c: Config, es: seq<Event>, pid: nat)
    ensures var applied := Run(c, IDLE, es).log.applied;
      Complete(pid) in applied && Fail(pid) in applied <==>
        exists i: nat, j: nat :: i < j && CarriedOutAt(c, es, i, Complete(pid))
          && es[i].reply == Rejected(true, false) && CarriedOutAt(c, es, j, Fail(pid))
  {
    assert es[..|es|] == es;
    AppliedIff(c, es, |es|, Complete(pid));
    AppliedIff(c, es, |es|, Fail(pid));
    hide Run;
    forall i: nat, j: nat | CarriedOutAt(c, es, i, Complete(pid)) && CarriedOutAt(c, es, j, Fail(pid))
      ensures i < j && es[i].reply == Rejected(true, false)
    {
      if j < i {
        OverAfter(c, es, j, i, Fail(pid));
      }
      if i < j && es[i].reply != Rejected(true, false) {
        OverAfter(c, es, i, j, Complete(pid));
      }
    }
  }

  lemma RunTwo(c: Config, w: Worker, a: Event, b: Event)
    ensures Run(c, w, [a, b]) == Step(c, Step(c, w, a), b)
  {
    hide Step;
    assert [a, b][1..] == [b] && [b][1..] == [];
    assert Run(c, Step(c, w, a), [b]) == Step(c, Step(c, w, a), b);
  }

  // ---- The job map follows the processings ---------------------------------------------------

  predicate Fresh(w: Worker, e: Event) {
    e.Dequeued? && e.delivery.Some? ==> e.delivery.value.job !in w.active
  }

  // No active job is handed out a second time (`requeueStuck` may do that to a long one).
  predicate FreshDeliveries(c: Config, w: Worker, es: seq<Event>)
    decreases |es|
  {
    es == [] || (Fresh(w, es[0]) && FreshDeliveries(c, Step(c, w, es[0]), es[1..]))
  }

  ghost predicate Tracked(w: Worker) {
    && (forall pid <- w.inFlight ::
          pid < w.nextPid && w.inFlight[pid].job in w.active && w.active[w.inFlight[pid].job] == pid)
    && (forall j <- w.active :: w.active[j] < w.nextPid)
  }

  // A map entry whose processing is over: the slot was lost.
  ghost predicate LostStays(w: Worker, v: Worker) {
    forall j <- w.active | w.active[j] !in w.inFlight ::
      j in v.active && v.active[j] == w.active[j] && v.active[j] !in v.inFlight
  }

  /** What a step of processing `pid` does to the two maps: nothing, or its end with or without the slot. */
  ghost predicate Advances(w: Worker, v: Worker, pid: nat) {
    && v.nextPid == w.nextPid && v.inFlight.Keys <= w.inFlight.Keys
    && (forall q <- v.inFlight :: v.inFlight[q].job == w.inFlight[q].job)
    && (v.active == w.active
        || (pid in w.inFlight && pid !in v.inFlight && v.active == w.active - {w.inFlight[pid].job}))
  }

  function PidOf(e: Event): nat
    requires WorkerRuns.Processes(e)
  {
    match e
    case HandlerEnded(pid, _) => pid
    case CompleteAnswered(pid, _) => pid
    case FailAnswered(pid, _) => pid
  }

  lemma EndAdvances(w: Worker, l: Log, pid: nat, frees: bool)
    requires pid in w.inFlight
    ensures Advances(w, EndJob(w.(log := l), pid, frees), pid)
  {
    EndJobKeys(w.(log := l), pid, frees);
    hide EndJob;
  }

  lemma CallFailAdvances(w: Worker, l: Log, pid: nat)
    requires pid in w.inFlight
    ensures Advances(w, CallFail(w.(log := l), pid, false), pid)
  {
  }

  lemma HandlerAdvances(w: Worker, pid: nat, end: HandlerEnd)
    ensures Advances(w, HandlerDone(w, pid, end), pid)
  {
    if In(w, pid, Handling) && end.Throws? {
      hide EndJob, CallFail, Advances;
      EndAdvances(w, w.log.(dropped := w.log.dropped + {pid}), pid, true);
      CallFailAdvances(w, w.log.(troubled := w.log.troubled + {pid}), pid);
    }
  }

  lemma CompleteAdvances(w: Worker, pid: nat, reply: Reply)
    ensures Advances(w, CompleteDone(w, pid, reply), pid)
  {
    if In(w, pid, Completing) {
      hide EndJob, CallFail, Advances, Carried;
      var l := Carried(w.log, Complete(pid), reply);
      EndAdvances(w, l.(accepted := l.accepted + {pid}), pid, true);
      EndAdvances(w, l.(dropped := l.dropped + {pid}), pid, true);
      CallFailAdvances(w, l.(refused := l.refused + {pid}), pid);
    }
  }

  lemma ProcessingAdvances(c: Config, w: Worker, e: Event)
    requires WorkerRuns.Processes(e)
    ensures Advances(w, Step(c, w, e), PidOf(e))
  {
    hide HandlerDone, CompleteDone, Advances;
    match e
    case HandlerEnded(pid, end) => HandlerAdvances(w, pid, end);
    case CompleteAnswered(pid, reply) => CompleteAdvances(w, pid, reply);
    case FailAnswered(pid, reply) => FailAdvances(w, pid, reply);
  }

  lemma FailAdvances(w: Worker, pid: nat, reply: Reply)
    ensures Advances(w, FailDone(w, pid, reply), pid)
  {
    if pid in w.inFlight && w.inFlight[pid].phase.Failing? {
      hide EndJob, Advances, Carried;
      EndAdvances(w, Carried(w.log, Fail(pid), reply), pid, w.inFlight[pid].phase.missing ==> reply.Accepted?);
    }
  }

  lemma AdvanceKeepsTracked(w: Worker, v: Worker, pid: nat)
    requires Tracked(w) && Advances(w, v, pid)
    ensures Tracked(v) && LostStays(w, v)
  {
  }

  lemma StartShape(w: Worker, d: Delivery)
    ensures var v := StartJob(w, d);
      && v.active == w.active[d.job := w.nextPid] && v.nextPid == w.nextPid + 1
      && v.inFlight.Keys == w.inFlight.Keys + {w.nextPid} && v.inFlight[w.nextPid].job == d.job
      && (forall q <- w.inFlight | q != w.nextPid :: v.inFlight[q] == w.inFlight[q])
  {
  }

  lemma TakeRecords(w: Worker, k: nat, delivery: Option<Delivery>)
    requires Awaits(w, k)
    ensures var u := if delivery.Some? then StartJob(w, delivery.value) else w;
      var v := TakeJob(w, k, delivery);
      v.inFlight == u.inFlight && v.active == u.active && v.nextPid == u.nextPid
  {
    hide StartJob;
  }

  lemma TakeKeepsTracked(w: Worker, k: nat, delivery: Option<Delivery>)
    requires Tracked(w) && Fresh(w, Dequeued(k, delivery))
    ensures Tracked(TakeJob(w, k, delivery)) && LostStays(w, TakeJob(w, k, delivery))
  {
    if Awaits(w, k) {
      TakeRecords(w, k, delivery);
      if delivery.Some? {
        StartShape(w, delivery.value);
      }
      hide TakeJob, StartJob;
    }
  }

  lemma StepKeepsTracked(c: Config, w: Worker, e: Event)
    requires Tracked(w) && Fresh(w, e)
    ensures Tracked(Step(c, w, e)) && LostStays(w, Step(c, w, e))
  {
    hide TakeJob, HandlerDone, CompleteDone, FailDone;
    if e.Dequeued? {
      hide Tracked, LostStays;
      TakeKeepsTracked(w, e.poll, e.delivery);
    } else if WorkerRuns.Processes(e) {
      hide Step, Tracked, LostStays, Advances;
      ProcessingAdvances(c, w, e);
      AdvanceKeepsTracked(w, Step(c, w, e), PidOf(e));
    } else {
      hide Step;
      JobsUnchanged(c, w, e);
    }
  }

  lemma {:induction false} ValuesBound<K, V>(m: map<K, V>)
    ensures |m.Values| <= |m|
    decreases |m|
  {
  }

  lemma SubsetSize<T>(a: set<T>, b: set<T>)
    requires a <= b
    ensures |a| <= |b|
  {
    assert b == a + (b - a);
  }

  lemma TrackedCounts(w: Worker)
    requires Tracked(w)
    ensures |w.inFlight| <= |w.active|
  {
    assert w.inFlight.Keys <= w.active.Values by {
      forall pid | pid in w.inFlight ensures pid in w.active.Values {
        assert w.active[w.inFlight[pid].job] == pid;
      }
    }
    SubsetSize(w.inFlight.Keys, w.active.Values);
    ValuesBound(w.active);
  }

  /**
    When no active job is dequeued again, the job map covers every running processing, so the
    bound on the map is a bound on them; and a job whose slot was lost (no handler, and `fail`
    rejected) stays in the map for good.
   */
  lemma {:induction false} MapCoversProcessings(c: Config, w: Worker, es: seq<Event>)
    requires Tracked(w) && FreshDeliveries(c, w, es)
    ensures var v := Run(c, w, es);
      && Tracked(v) && |v.inFlight| <= |v.active|
      && forall j <- w.active | w.active[j] !in w.inFlight :: j in v.active
    decreases |es|
  {
    hide Step, Tracked;
    if es == [] {
      TrackedCounts(w);
    } else {
      StepKeepsTracked(c, w, es[0]);
      MapCoversProcessings(c, Step(c, w, es[0]), es[1..]);
    }
  }

  /** The step ends a processing and gives its slot back. */
  predicate Frees(w: Worker, e: Event) {
    match e
    case HandlerEnded(pid, end) => In(w, pid, Handling) && end == Throws(true)
    case CompleteAnswered(pid, reply) => In(w, pid, Completing) && (reply.Accepted? || reply.abortError)
    case FailAnswered(pid, reply) =>
      pid in w.inFlight && w.inFlight[pid].phase.Failing? && (w.inFlight[pid].phase.missing ==> reply.Accepted?)
    case _ => false
  }

  // The log with which a freeing step ends its processing.
  function FreedLog(w: Worker, e: Event): Log
    requires Frees(w, e)
  {
    match e
    case HandlerEnded(pid, _) => w.log.(dropped := w.log.dropped + {pid})
    case CompleteAnswered(pid, reply) =>
      var l := Carried(w.log, Complete(pid), reply);
      if reply.Accepted? then l.(accepted := l.accepted + {pid}) else l.(dropped := l.dropped + {pid})
    case FailAnswered(pid, reply) => Carried(w.log, Fail(pid), reply)
  }

  lemma FreeingStep(c: Config, w: Worker, e: Event)
    requires WorkerRuns.Processes(e) && Frees(w, e)
    ensures PidOf(e) in w.inFlight && Step(c, w, e) == EndJob(w.(log := FreedLog(w, e)), PidOf(e), true)
  {
    hide EndJob, Carried;
  }

  /** Without that assumption: a redelivered job runs on, uncounted, once its first processing ends. */
  lemma RedeliveryHidesProcessing(c: Config, w: Worker, k: nat, d: Delivery, e: Event)
    requires Tracked(w) && Awaits(w, k) && d.job in w.active && w.active[d.job] in w.inFlight
    requires w.inFlight[w.active[d.job]].job == d.job
    requires WorkerRuns.Processes(e) && PidOf(e) == w.active[d.job] && Frees(w, e)
    ensures var v := Run(c, w, [Dequeued(k, Some(d)), e]);
      w.nextPid in v.inFlight && v.inFlight[w.nextPid].job == d.job && d.job !in v.active
  {
    var pid := w.active[d.job];
    assert pid < w.nextPid;
    RunTwo(c, w, Dequeued(k, Some(d)), e);
    TakeRecords(w, k, Some(d));
    StartShape(w, d);
    hide Run, Tracked, TakeJob, EndJob, StartJob;
    var u := TakeJob(w, k, Some(d));
    assert u.inFlight[pid] == w.inFlight[pid];
    FreeingStep(c, u, e);
    EndJobKeys(u.(log := FreedLog(u, e)), pid, true);
  }

  // ---- The log, read off the run -------------------------------------------------------------

  datatype LogFact =
    | Troubled(pid: nat)
    | Refused(pid: nat)
    | Completed(pid: nat)
    | Dropped(pid: nat)
    | Freed(pid: nat)
    | Called(call: Call)

  predicate InLog(l: Log, f: LogFact) {
    match f
    case Troubled(pid) => pid in l.troubled
    case Refused(pid) => pid in l.refused
    case Completed(pid) => pid in l.accepted
    case Dropped(pid) => pid in l.dropped
    case Freed(pid) => pid in l.freed
    case Called(call) => call in l.calls
  }

  // Processing `pid` starts and cannot be run: no handler, or a payload that does not parse.
  predicate BadStart(w: Worker, e: Event, pid: nat) {
    e.Dequeued? && Awaits(w, e.poll) && e.delivery.Some? && pid == w.nextPid && !e.delivery.value.kind.Runnable?
  }

  predicate HandlerGives(w: Worker, e: Event, pid: nat, end: HandlerEnd) {
    e == HandlerEnded(pid, end) && In(w, pid, Handling)
  }

  predicate CompleteRefused(w: Worker, e: Event, pid: nat, abortError: bool) {
    && e.CompleteAnswered? && e.pid == pid && In(w, pid, Completing)
    && e.reply.Rejected? && e.reply.abortError == abortError
  }

  predicate Notes(w: Worker, e: Event, f: LogFact) {
    match f
    case Troubled(pid) => BadStart(w, e, pid) || HandlerGives(w, e, pid, Throws(false))
    case Refused(pid) => CompleteRefused(w, e, pid, false)
    case Completed(pid) => e == CompleteAnswered(pid, Accepted) && In(w, pid, Completing)
    case Dropped(pid) => HandlerGives(w, e, pid, Throws(true)) || CompleteRefused(w, e, pid, true)
    case Freed(pid) => WorkerRuns.Processes(e) && PidOf(e) == pid && Frees(w, e)
    case Called(Complete(pid)) => HandlerGives(w, e, pid, Returns)
    case Called(Fail(pid)) =>
      BadStart(w, e, pid) || HandlerGives(w, e, pid, Throws(false)) || CompleteRefused(w, e, pid, false)
  }

  lemma EndNotes(w: Worker, pid: nat, frees: bool, f: LogFact)
    requires pid in w.inFlight
    ensures InLog(EndJob(w, pid, frees).log, f) <==> InLog(w.log, f) || (frees && f == Freed(pid))
  {
  }

  lemma StartNotes(w: Worker, d: Delivery, f: LogFact)
    ensures var added := !d.kind.Runnable? && (f == Troubled(w.nextPid) || f == Called(Fail(w.nextPid)));
      InLog(StartJob(w, d).log, f) <==> InLog(w.log, f) || added
  {
  }

  lemma CallNotes(w: Worker, pid: nat, missing: bool, f: LogFact)
    requires pid in w.inFlight
    ensures InLog(CallFail(w, pid, missing).log, f) <==> InLog(w.log, f) || f == Called(Fail(pid))
  {
  }

  lemma SetNotes(l: Log, pid: nat, f: LogFact)
    ensures InLog(l.(dropped := l.dropped + {pid}), f) <==> InLog(l, f) || f == Dropped(pid)
    ensures InLog(l.(troubled := l.troubled + {pid}), f) <==> InLog(l, f) || f == Troubled(pid)
    ensures InLog(l.(accepted := l.accepted + {pid}), f) <==> InLog(l, f) || f == Completed(pid)
    ensures InLog(l.(refused := l.refused + {pid}), f) <==> InLog(l, f) || f == Refused(pid)
    ensures InLog(l.(calls := l.calls + multiset{Complete(pid)}), f) <==> InLog(l, f) || f == Called(Complete(pid))
  {
  }

  lemma HandlerEndNotes(w: Worker, pid: nat, end: HandlerEnd, f: LogFact)
    requires In(w, pid, Handling)
    ensures Notes(w, HandlerEnded(pid, end), f) <==>
      match end
      case Returns => f == Called(Complete(pid))
      case Throws(true) => f == Dropped(pid) || f == Freed(pid)
      case Throws(false) => f == Troubled(pid) || f == Called(Fail(pid))
  {
  }

  lemma AnswerNotes(w: Worker, pid: nat, reply: Reply, f: LogFact)
    requires In(w, pid, Completing)
    ensures Notes(w, CompleteAnswered(pid, reply), f) <==>
      match reply
      case Accepted => f == Completed(pid) || f == Freed(pid)
      case Rejected(_, true) => f == Dropped(pid) || f == Freed(pid)
      case Rejected(_, false) => f == Refused(pid) || f == Called(Fail(pid))
  {
  }

  lemma HandlerNotes(w: Worker, pid: nat, end: HandlerEnd, f: LogFact)
    ensures InLog(HandlerDone(w, pid, end).log, f) <==> InLog(w.log, f) || Notes(w, HandlerEnded(pid, end), f)
  {
    if In(w, pid, Handling) {
      HandlerEndNotes(w, pid, end, f);
      SetNotes(w.log, pid, f);
      hide EndJob, CallFail, InLog, Notes;
      match end
      case Returns =>
      case Throws(true) => EndNotes(w.(log := w.log.(dropped := w.log.dropped + {pid})), pid, true, f);
      case Throws(false) => CallNotes(w.(log := w.log.(troubled := w.log.troubled + {pid})), pid, false, f);
    }
  }

  lemma CompleteNotes(w: Worker, pid: nat, reply: Reply, f: LogFact)
    ensures InLog(CompleteDone(w, pid, reply).log, f) <==> InLog(w.log, f) || Notes(w, CompleteAnswered(pid, reply), f)
  {
    if In(w, pid, Completing) {
      var l := Carried(w.log, Complete(pid), reply);
      CarriedNotes(w.log, Complete(pid), reply, f);
      AnswerNotes(w, pid, reply, f);
      SetNotes(l, pid, f);
      hide EndJob, CallFail, Carried, InLog, Notes;
      match reply
      case Accepted => EndNotes(w.(log := l.(accepted := l.accepted + {pid})), pid, true, f);
      case Rejected(_, true) => EndNotes(w.(log := l.(dropped := l.dropped + {pid})), pid, true, f);
      case Rejected(_, false) => CallNotes(w.(log := l.(refused := l.refused + {pid})), pid, false, f);
    }
  }

  lemma FailAnswerNotes(w: Worker, pid: nat, reply: Reply, f: LogFact)
    requires pid in w.inFlight && w.inFlight[pid].phase.Failing?
    ensures Notes(w, FailAnswered(pid, reply), f) <==>
      f == Freed(pid) && (w.inFlight[pid].phase.missing ==> reply.Accepted?)
  {
  }

  lemma CarriedNotes(l: Log, call: Call, reply: Reply, f: LogFact)
    ensures InLog(Carried(l, call, reply), f) <==> InLog(l, f)
  {
  }

  lemma FailNotes(w: Worker, pid: nat, reply: Reply, f: LogFact)
    ensures InLog(FailDone(w, pid, reply).log, f) <==> InLog(w.log, f) || Notes(w, FailAnswered(pid, reply), f)
  {
    if pid in w.inFlight && w.inFlight[pid].phase.Failing? {
      CarriedNotes(w.log, Fail(pid), reply, f);
      FailAnswerNotes(w, pid, reply, f);
      hide EndJob, Carried, InLog, Notes;
      EndNotes(w.(log := Carried(w.log, Fail(pid), reply)), pid, w.inFlight[pid].phase.missing ==> reply.Accepted?, f);
    } else {
      hide InLog;
    }
  }

  lemma DequeueNotes(w: Worker, k: nat, delivery: Option<Delivery>, f: LogFact)
    ensures Notes(w, Dequeued(k, delivery), f) <==>
      && Awaits(w, k) && delivery.Some? && !delivery.value.kind.Runnable?
      && (f == Troubled(w.nextPid) || f == Called(Fail(w.nextPid)))
  {
  }

  lemma TakeNotes(w: Worker, k: nat, delivery: Option<Delivery>, f: LogFact)
    ensures InLog(TakeJob(w, k, delivery).log, f) <==> InLog(w.log, f) || Notes(w, Dequeued(k, delivery), f)
  {
    DequeueNotes(w, k, delivery, f);
    hide Notes, InLog, StartJob;
    if Awaits(w, k) && delivery.Some? {
      StartNotes(w, delivery.value, f);
    }
  }

  lemma StepNotes(c: Config, w: Worker, e: Event, f: LogFact)
    ensures InLog(Step(c, w, e).log, f) <==> InLog(w.log, f) || Notes(w, e, f)
  {
    hide TakeJob, HandlerDone, CompleteDone, FailDone, InLog;
    hide StartWorker, StopWorker, BeginPoll, DequeueError, EndPoll, GraceOver;
    if TouchesJobs(e) {
      hide Notes;
      match e
      case Dequeued(k, delivery) => TakeNotes(w, k, delivery, f);
      case HandlerEnded(pid, end) => HandlerNotes(w, pid, end, f);
      case CompleteAnswered(pid, reply) => CompleteNotes(w, pid, reply, f);
      case FailAnswered(pid, reply) => FailNotes(w, pid, reply, f);
    } else {
      hide Step;
      JobsUnchanged(c, w, e);
    }
  }

  ghost predicate NotedAt(c: Config, es: seq<Event>, i: nat, f: LogFact) {
    i < |es| && Notes(Run(c, IDLE, es[..i]), es[i], f)
  }

  ghost predicate EverNoted(c: Config, es: seq<Event>, n: nat, f: LogFact) {
    exists i: nat :: i < n && NotedAt(c, es, i, f)
  }

  lemma EverNotedNext(c: Config, es: seq<Event>, n: nat, f: LogFact)
    ensures EverNoted(c, es, n + 1, f) <==> EverNoted(c, es, n, f) || NotedAt(c, es, n, f)
    ensures !EverNoted(c, es, 0, f) && !InLog(IDLE.log, f)
  {
    hide NotedAt;
  }

  /**
    In every run: whose start or handler failed, whose `complete` was refused or accepted, who was given
    up on an AbortError, who gave its slot back, and what was called for whom, each exactly because some
    step of the run says so.
   */
  lemma {:induction false} NotedIff(c: Config, es: seq<Event>, n: nat, f: LogFact)
    requires n <= |es|
    ensures InLog(Run(c, IDLE, es[..n]).log, f) <==> EverNoted(c, es, n, f)
  {
    EverNotedNext(c, es, if n > 0 then n - 1 else 0, f);
    if n > 0 {
      var w := Run(c, IDLE, es[..n - 1]);
      assert NotedAt(c, es, n - 1, f) <==> Notes(w, es[n - 1], f);
      RunUpTo(c, es, n - 1);
      hide Run, Step, Notes, InLog, EverNoted, NotedAt;
      NotedIff(c, es, n - 1, f);
      StepNotes(c, w, es[n - 1], f);
    } else {
      hide InLog, EverNoted;
    }
  }

  // ---- Lost slots ----------------------------------------------------------------------------

  // Waiting for `fail` in the branch without a handler.
  predicate Handlerless(w: Worker, pid: nat) {
    In(w, pid, Failing(true))
  }

  lemma StartHandlerless(w: Worker, d: Delivery, pid: nat)
    ensures Handlerless(StartJob(w, d), pid) <==>
      if pid == w.nextPid then d.kind.NoHandler? else Handlerless(w, pid)
  {
  }

  lemma TakeHandlerless(w: Worker, k: nat, delivery: Option<Delivery>, pid: nat)
    ensures Handlerless(TakeJob(w, k, delivery), pid) <==>
      if Awaits(w, k) && delivery.Some? && pid == w.nextPid then delivery.value.kind.NoHandler? else Handlerless(w, pid)
  {
    if Awaits(w, k) && delivery.Some? {
      TakeRecords(w, k, delivery);
      StartHandlerless(w, delivery.value, pid);
      hide StartJob, TakeJob;
    }
  }

  lemma EndHandlerless(w: Worker, q: nat, frees: bool, pid: nat)
    requires q in w.inFlight
    ensures Handlerless(EndJob(w, q, frees), pid) <==> Handlerless(w, pid) && pid != q
  {
    EndJobKeys(w, q, frees);
  }

  lemma CallHandlerless(w: Worker, q: nat, pid: nat)
    requires q in w.inFlight && !Handlerless(w, q)
    ensures Handlerless(CallFail(w, q, false), pid) <==> Handlerless(w, pid)
  {
  }

  lemma HandlerLeavesHandlerless(w: Worker, q: nat, end: HandlerEnd, pid: nat)
    ensures Handlerless(HandlerDone(w, q, end), pid) <==> Handlerless(w, pid)
  {
    if In(w, q, Handling) {
      hide EndJob, CallFail;
      match end
      case Returns =>
      case Throws(true) => EndHandlerless(w.(log := w.log.(dropped := w.log.dropped + {q})), q, true, pid);
      case Throws(false) => CallHandlerless(w.(log := w.log.(troubled := w.log.troubled + {q})), q, pid);
    }
  }

  lemma CompleteLeavesHandlerless(w: Worker, q: nat, reply: Reply, pid: nat)
    ensures Handlerless(CompleteDone(w, q, reply), pid) <==> Handlerless(w, pid)
  {
    if In(w, q, Completing) {
      hide EndJob, CallFail, Carried;
      var l := Carried(w.log, Complete(q), reply);
      match reply
      case Accepted => EndHandlerless(w.(log := l.(accepted := l.accepted + {q})), q, true, pid);
      case Rejected(_, true) => EndHandlerless(w.(log := l.(dropped := l.dropped + {q})), q, true, pid);
      case Rejected(_, false) => CallHandlerless(w.(log := l.(refused := l.refused + {q})), q, pid);
    }
  }

  lemma FailEndsHandlerless(w: Worker, q: nat, reply: Reply, pid: nat)
    ensures Handlerless(FailDone(w, q, reply), pid) <==> Handlerless(w, pid) && pid != q
  {
    if q in w.inFlight && w.inFlight[q].phase.Failing? {
      hide EndJob, Carried;
      var frees := w.inFlight[q].phase.missing ==> reply.Accepted?;
      EndHandlerless(w.(log := Carried(w.log, Fail(q), reply)), q, frees, pid);
    }
  }

  lemma StepHandlerless(c: Config, w: Worker, e: Event, pid: nat)
    ensures Handlerless(Step(c, w, e), pid) <==>
      if e.Dequeued? && Awaits(w, e.poll) && e.delivery.Some? && pid == w.nextPid
      then e.delivery.value.kind.NoHandler?
      else Handlerless(w, pid) && !(e.FailAnswered? && e.pid == pid)
  {
    hide TakeJob, HandlerDone, CompleteDone, FailDone;
    if TouchesJobs(e) {
      hide Handlerless;
      match e
      case Dequeued(k, delivery) => TakeHandlerless(w, k, delivery, pid);
      case HandlerEnded(q, end) => HandlerLeavesHandlerless(w, q, end, pid);
      case CompleteAnswered(q, reply) => CompleteLeavesHandlerless(w, q, reply, pid);
      case FailAnswered(q, reply) => FailEndsHandlerless(w, q, reply, pid);
    } else {
      hide Step;
      JobsUnchanged(c, w, e);
    }
  }

  ghost predicate BornWithout(c: Config, es: seq<Event>, i: nat, pid: nat) {
    i < |es| && BadStart(Run(c, IDLE, es[..i]), es[i], pid) && es[i].delivery.value.kind.NoHandler?
  }

  /** Only a processing that started without a handler waits in that branch. */
  lemma {:induction false} HandlerlessIsBorn(c: Config, es: seq<Event>, n: nat, pid: nat)
    requires n <= |es| && Handlerless(Run(c, IDLE, es[..n]), pid)
    ensures exists i: nat :: i < n && BornWithout(c, es, i, pid)
  {
    if n > 0 {
      RunUpTo(c, es, n - 1);
      StepHandlerless(c, Run(c, IDLE, es[..n - 1]), es[n - 1], pid);
      hide Run, Step, Handlerless;
      if Handlerless(Run(c, IDLE, es[..n - 1]), pid) {
        HandlerlessIsBorn(c, es, n - 1, pid);
      } else {
        assert BornWithout(c, es, n - 1, pid);
      }
    }
  }

  /** The answer to `fail` in the branch without a handler was a rejection. */
  predicate LosesSlot(w: Worker, e: Event, pid: nat) {
    e.FailAnswered? && e.pid == pid && Handlerless(w, pid) && e.reply.Rejected?
  }

  predicate GivesBack(w: Worker, e: Event, pid: nat) {
    WorkerRuns.Processes(e) && PidOf(e) == pid && Frees(w, e)
  }

  lemma ProcessingEndsHow(c: Config, w: Worker, e: Event, pid: nat)
    requires WorkerRuns.Processes(e) && pid in w.inFlight
    ensures pid !in Step(c, w, e).inFlight <==> GivesBack(w, e, pid) || LosesSlot(w, e, pid)
  {
    hide EndJob, Carried;
    var q := PidOf(e);
    if Frees(w, e) {
      FreeingStep(c, w, e);
      EndJobKeys(w.(log := FreedLog(w, e)), q, true);
    } else if e.FailAnswered? && q in w.inFlight && w.inFlight[q].phase.Failing? {
      EndJobKeys(w.(log := Carried(w.log, Fail(q), e.reply)), q, false);
    }
  }

  lemma EndsHow(c: Config, w: Worker, e: Event, pid: nat)
    requires pid in w.inFlight && pid < w.nextPid
    ensures pid !in Step(c, w, e).inFlight <==> GivesBack(w, e, pid) || LosesSlot(w, e, pid)
  {
    if WorkerRuns.Processes(e) {
      ProcessingEndsHow(c, w, e, pid);
    } else if e.Dequeued? {
      if Awaits(w, e.poll) {
        TakeRecords(w, e.poll, e.delivery);
        if e.delivery.Some? {
          StartShape(w, e.delivery.value);
        }
        hide TakeJob, StartJob;
      }
    } else {
      JobsUnchanged(c, w, e);
      hide Step;
    }
  }

  predicate SlotLost(w: Worker, pid: nat) {
    IsOver(w, pid) && pid !in w.log.freed
  }

  lemma UnbornStep(c: Config, w: Worker, e: Event, pid: nat)
    requires pid >= w.nextPid && pid !in w.inFlight
    ensures !IsOver(Step(c, w, e), pid)
  {
    if e.Dequeued? {
      if Awaits(w, e.poll) {
        TakeRecords(w, e.poll, e.delivery);
        if e.delivery.Some? {
          StartShape(w, e.delivery.value);
        }
        hide TakeJob, StartJob;
      }
    } else if WorkerRuns.Processes(e) {
      ProcessingAdvances(c, w, e);
      hide Step;
    } else {
      JobsUnchanged(c, w, e);
      hide Step;
    }
  }

  lemma LostStep(c: Config, w: Worker, e: Event, pid: nat)
    requires Audited(w)
    ensures SlotLost(Step(c, w, e), pid) <==> SlotLost(w, pid) || LosesSlot(w, e, pid)
  {
    StepNotes(c, w, e, Freed(pid));
    assert Proper(AccountOf(w.log, pid), StatusOf(w, pid));
    if IsOver(w, pid) {
      StepKeepsOver(c, w, e, pid);
      hide Step;
      assert !GivesBack(w, e, pid) && !LosesSlot(w, e, pid);
    } else if pid in w.inFlight {
      EndsHow(c, w, e, pid);
      StepGrowsPids(c, w, e);
      assert pid !in w.log.freed;
      hide Step;
      OneEnd(w, e, pid);
    } else {
      UnbornStep(c, w, e, pid);
      hide Step;
    }
  }

  lemma OneEnd(w: Worker, e: Event, pid: nat)
    ensures !(GivesBack(w, e, pid) && LosesSlot(w, e, pid))
  {
  }

  ghost predicate LostAt(c: Config, es: seq<Event>, j: nat, pid: nat) {
    j < |es| && LosesSlot(Run(c, IDLE, es[..j]), es[j], pid)
  }

  ghost predicate EverLost(c: Config, es: seq<Event>, n: nat, pid: nat) {
    exists j: nat :: j < n && LostAt(c, es, j, pid)
  }

  lemma EverLostNext(c: Config, es: seq<Event>, n: nat, pid: nat)
    ensures EverLost(c, es, n + 1, pid) <==> EverLost(c, es, n, pid) || LostAt(c, es, n, pid)
    ensures !EverLost(c, es, 0, pid) && !SlotLost(IDLE, pid)
  {
    hide LostAt;
  }

  lemma {:induction false} LostWhen(c: Config, es: seq<Event>, n: nat, pid: nat)
    requires n <= |es|
    ensures SlotLost(Run(c, IDLE, es[..n]), pid) <==> EverLost(c, es, n, pid)
  {
    EverLostNext(c, es, if n > 0 then n - 1 else 0, pid);
    if n > 0 {
      var w := Run(c, IDLE, es[..n - 1]);
      assert LostAt(c, es, n - 1, pid) <==> LosesSlot(w, es[n - 1], pid);
      assert Audited(IDLE);
      RunUpTo(c, es, n - 1);
      hide Run, Step, LosesSlot, SlotLost, Audited, EverLost, LostAt;
      LostWhen(c, es, n - 1, pid);
      RunKeepsAudited(c, IDLE, es[..n - 1]);
      LostStep(c, w, es[n - 1], pid);
    } else {
      hide SlotLost, EverLost;
    }
  }

  /**
    In every run a processing ends without giving its slot back exactly when it started without a handler
    and its `fail` was then answered with a rejection.
   */
  lemma SlotLostIff(c: Config, es: seq<Event>, pid: nat)
    ensures SlotLost(Run(c, IDLE, es), pid) <==>
      exists i: nat, j: nat :: i < j && BornWithout(c, es, i, pid) && LostAt(c, es, j, pid)
  {
    assert es[..|es|] == es;
    LostWhen(c, es, |es|, pid);
    hide Run;
    forall j: nat | LostAt(c, es, j, pid) ensures exists i: nat :: i < j && BornWithout(c, es, i, pid) {
      HandlerlessIsBorn(c, es, j, pid);
    }
  }

  lemma StepGrowsPids(c: Config, w: Worker, e: Event)
    ensures w.nextPid <= Step(c, w, e).nextPid
  {
    if e.Dequeued? {
      if Awaits(w, e.poll) {
        TakeRecords(w, e.poll, e.delivery);
        if e.delivery.Some? {
          StartShape(w, e.delivery.value);
        }
        hide TakeJob, StartJob;
      }
    } else if WorkerRuns.Processes(e) {
      ProcessingAdvances(c, w, e);
      hide Step;
    } else {
      JobsUnchanged(c, w, e);
      hide Step;
    }
  }
}
