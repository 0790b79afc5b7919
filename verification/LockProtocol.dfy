/**
  The stage-lock protocol: several workers over one lock name, each acquiring a fenced
  row, renewing it on a heartbeat and giving up at the third failed renewal in a row.
  A run is any interleaving of the events below over discrete time.  Two processes never
  both believe they hold the lock, in any run with fresh acquisitions, exactly when the
  TTL is at least three heartbeats and two call latencies.
 */
module LockProtocol {
  import opened Wrappers
  import opened FencedLock

  type Process = nat

  /**
    `latency` bounds one call to the lock provider; `beat` is the setInterval period.  Rows carry a
    process's worker id, made from its pid: two processes, on two hosts, may have the same one.
   */
  datatype Params = Params(name: string, ttl: nat, beat: nat, latency: nat, id: Process -> WorkerId)

  predicate ValidParams(p: Params) {
    0 < p.beat && p.latency <= p.beat
  }

  // A renewal under way: due back by `deadline`; `answer` once the statement has run or failed.
  datatype Flight = Flight(deadline: nat, answer: Option<bool>)
  datatype Hold = Hold(token: Token, tickDue: nat, failures: nat, flight: Option<Flight>, aborted: bool)
  datatype Phase = Idle | Holding(hold: Hold) | Releasing(token: Token) | Dead

  datatype State = State(now: nat, table: Table, phases: map<Process, Phase>, issued: set<Token>)

  datatype Event =
    | Advance(to: nat)
    | Acquire(w: Process, drawn: Token, firstTick: nat)
    | Tick(w: Process)                    // setInterval fires: the renewal is sent
    | Execute(w: Process)                 // its UPDATE runs
    | Fault(w: Process)                   // its UPDATE throws
    | Settle(w: Process)                  // the callback counts the answer
    | StopBeat(w: Process)                // release: clearInterval ..
    | Unlock(w: Process)                  // .. then the DELETE
    | UnlockLost(w: Process)              // .. or its swallowed failure
    | Crash(w: Process)
    | StrayRenew(w: Process, token: Token) // a renewal still under way after release or abort
    | PurgeOnly                            // a rival's DELETE whose INSERT then failed

  function PhaseOf(s: State, w: Process): Phase {
    if w in s.phases then s.phases[w] else Idle
  }

  /** The worker counts itself the holder: heartbeat running and run not aborted. */
  predicate Believes(s: State, w: Process) {
    PhaseOf(s, w).Holding? && !PhaseOf(s, w).hold.aborted
  }

  function Init(start: nat): State {
    State(start, map[], map[], {})
  }

  // Timers fire when due and calls return in time, for workers that still count.
  predicate Punctual(s: State, to: nat) {
    forall w | w in s.phases && Believes(s, w) ::
      var h := s.phases[w].hold;
      to <= if h.flight.Some? then h.flight.value.deadline else h.tickDue
  }

  predicate Enabled(p: Params, s: State, e: Event) {
    match e
    case Advance(to) => s.now <= to && Punctual(s, to)
    case Acquire(w, drawn, firstTick) =>
      PhaseOf(s, w).Idle? && drawn !in s.issued && s.now < firstTick <= s.now + p.latency + p.beat
    case Tick(w) => PhaseOf(s, w).Holding? && PhaseOf(s, w).hold.flight.None? && s.now == PhaseOf(s, w).hold.tickDue
    case Execute(w) => Unanswered(PhaseOf(s, w))
    case Fault(w) => Unanswered(PhaseOf(s, w))
    case Settle(w) =>
      PhaseOf(s, w).Holding? && PhaseOf(s, w).hold.flight.Some? && PhaseOf(s, w).hold.flight.value.answer.Some?
    case StopBeat(w) => PhaseOf(s, w).Holding?
    case Unlock(w) => PhaseOf(s, w).Releasing?
    case UnlockLost(w) => PhaseOf(s, w).Releasing?
    case Crash(w) => true
    case StrayRenew(w, token) => true
    case PurgeOnly => true
  }

  predicate Unanswered(ph: Phase) {
    ph.Holding? && ph.hold.flight.Some? && ph.hold.flight.value.answer.None?
  }

  /** The failure counter after a renewal answer; the run is aborted at three. */
  function NextFailures(failures: nat, renewed: bool): nat {
    if renewed then 0 else failures + 1
  }

  function Step(p: Params, s: State, e: Event): State
    requires Enabled(p, s, e)
  {
    match e
    case Advance(to) => s.(now := to)
    case Acquire(w, drawn, firstTick) =>
      var (t, got) := TryFenced(s.table, p.name, p.ttl, s.now, p.id(w), drawn);
      s.(table := t, issued := s.issued + {drawn},
         phases := if got.None? then s.phases else s.phases[w := Holding(Hold(got.value, firstTick, 0, None, false))])
    case Tick(w) =>
      s.(phases := s.phases[w := Holding(PhaseOf(s, w).hold.(
           tickDue := s.now + p.beat, flight := Some(Flight(s.now + p.latency, None))))])
    case Execute(w) =>
      var (t, ok) := RenewFenced(s.table, p.name, p.ttl, s.now, p.id(w), PhaseOf(s, w).hold.token);
      s.(table := t, phases := s.phases[w := Answered(PhaseOf(s, w), ok)])
    case Fault(w) => s.(phases := s.phases[w := Answered(PhaseOf(s, w), false)])
    case Settle(w) =>
      var h := PhaseOf(s, w).hold;
      var f := NextFailures(h.failures, h.flight.value.answer.value);
      s.(phases := s.phases[w := Holding(h.(flight := None, failures := f, aborted := h.aborted || f >= 3))])
    case StopBeat(w) => s.(phases := s.phases[w := Releasing(PhaseOf(s, w).hold.token)])
    case Unlock(w) =>
      s.(table := UnlockFenced(s.table, p.name, p.id(w), PhaseOf(s, w).token), phases := s.phases[w := Idle])
    case UnlockLost(w) => s.(phases := s.phases[w := Idle])
    case Crash(w) => s.(phases := s.phases[w := Dead])
    case StrayRenew(w, token) => s.(table := RenewFenced(s.table, p.name, p.ttl, s.now, p.id(w), token).0)
    case PurgeOnly => s.(table := Purged(s.table, p.name, s.now))
  }

  function Answered(ph: Phase, ok: bool): Phase
    requires Unanswered(ph)
  {
    Holding(ph.hold.(flight := Some(ph.hold.flight.value.(answer := Some(ok)))))
  }

  predicate Legal(p: Params, s: State, es: seq<Event>)
    decreases |es|
  {
    es != [] ==> Enabled(p, s, es[0]) && Legal(p, Step(p, s, es[0]), es[1..])
  }

  function After(p: Params, s: State, es: seq<Event>): State
    requires Legal(p, s, es)
    decreases |es|
  {
    if es == [] then s else After(p, Step(p, s, es[0]), es[1..])
  }

  /**
    No acquisition finds a live row under the process's own worker id: one left behind by a lost unlock,
    or that of another process with that id.
   */
  predicate FreshAcquisitions(p: Params, s: State, es: seq<Event>)
    requires Legal(p, s, es)
    decreases |es|
  {
    es != [] ==>
      && (es[0].Acquire? ==> !OwnRowLive(p, s, es[0].w))
      && FreshAcquisitions(p, Step(p, s, es[0]), es[1..])
  }

  predicate OwnRowLive(p: Params, s: State, w: Process) {
    p.name in s.table && s.table[p.name].workerId == p.id(w) && Live(s.table[p.name], s.now)
  }

  ghost predicate Exclusive(s: State) {
    forall a, b :: Believes(s, a) && Believes(s, b) ==> a == b
  }

  // ---- Safety -------------------------------------------------------------------------------

  // What is left of the three tries.
  function TriesLeft(beat: nat, failures: nat): nat {
    if failures == 0 then 2 * beat else if failures == 1 then beat else 0
  }

  /** The latest instant at which the holder either renews or aborts. */
  function AbortBy(p: Params, h: Hold): nat {
    if h.flight.None? then h.tickDue + TriesLeft(p.beat, h.failures) + p.latency
    else if h.flight.value.answer == Some(true) then h.flight.value.deadline + 3 * p.beat
    else h.flight.value.deadline + TriesLeft(p.beat, h.failures)
  }

  /** A believing holder's row is its own and outlives its decision to give up. */
  predicate Covered(p: Params, s: State, w: Process) {
    PhaseOf(s, w).Holding? &&
    var h := PhaseOf(s, w).hold;
    && h.failures <= 2
    && Owns(s.table, p.name, p.id(w), h.token)
    && Seconds(AbortBy(p, h)) <= s.table[p.name].expiresAt
    && (match h.flight
        case None => s.now <= h.tickDue <= s.now + p.latency + p.beat
        case Some(f) => s.now <= f.deadline <= s.now + p.latency && f.deadline + p.beat == h.tickDue + p.latency)
  }

  function TokenOf(ph: Phase): Option<Token> {
    match ph
    case Holding(h) => Some(h.token)
    case Releasing(t) => Some(t)
    case _ => None
  }

  // No two processes hold or give back the same fence.
  ghost predicate OwnTokens(s: State) {
    && (forall w | TokenOf(PhaseOf(s, w)).Some? :: TokenOf(PhaseOf(s, w)).value in s.issued)
    && (forall a, b | a != b && TokenOf(PhaseOf(s, a)).Some? :: TokenOf(PhaseOf(s, a)) != TokenOf(PhaseOf(s, b)))
  }

  ghost predicate Inv(p: Params, s: State) {
    OwnTokens(s) && forall w :: Believes(s, w) ==> Covered(p, s, w)
  }

  lemma StepKeepsOwnTokens(p: Params, s: State, e: Event)
    requires OwnTokens(s) && Enabled(p, s, e)
    requires e.Acquire? ==> !OwnRowLive(p, s, e.w)
    ensures OwnTokens(Step(p, s, e))
  {
    var s' := Step(p, s, e);
    if e.Acquire? {
      AcquiredToken(p, s, e);
    } else {
      forall w ensures TokenOf(PhaseOf(s', w)).None? || TokenOf(PhaseOf(s', w)) == TokenOf(PhaseOf(s, w)) {
      }
    }
  }

  // A fresh acquisition is handed the token it drew, if any.
  lemma AcquiredToken(p: Params, s: State, e: Event)
    requires e.Acquire? && Enabled(p, s, e) && !OwnRowLive(p, s, e.w)
    ensures var s' := Step(p, s, e);
      && (TokenOf(PhaseOf(s', e.w)) == None || TokenOf(PhaseOf(s', e.w)) == Some(e.drawn))
      && s'.issued == s.issued + {e.drawn}
      && forall w | w != e.w :: PhaseOf(s', w) == PhaseOf(s, w)
  {
  }

  lemma CoveredIsLive(p: Params, s: State, w: Process)
    requires Covered(p, s, w)
    ensures Live(s.table[p.name], s.now)
  {
  }

  lemma SecondsMonotone(a: nat, b: nat)
    requires a <= b
    ensures Seconds(a) <= Seconds(b)
  {
  }

  function Actor(e: Event): Option<Process> {
    match e
    case Advance(_) => None
    case PurgeOnly => None
    case _ => Some(e.w)
  }

  // Nobody else's statement takes a live row away, whatever its worker id: neither an acquisition, a
  // purge nor an unlock; a renewal can only put its expiry off.
  lemma OthersKeepCover(p: Params, s: State, e: Event, w: Process)
    requires ValidParams(p) && 3 * p.beat + 2 * p.latency <= p.ttl && OwnTokens(s)
    requires Enabled(p, s, e) && Believes(s, w) && Covered(p, s, w) && Actor(e) != Some(w)
    requires e.Acquire? ==> !OwnRowLive(p, s, e.w)
    ensures Covered(p, Step(p, s, e), w)
  {
    CoveredIsLive(p, s, w);
    RenewalOnlyExtends(p, s, w);
    if e.Unlock? {
      assert TokenOf(PhaseOf(s, e.w)) != TokenOf(PhaseOf(s, w));
    }
    hide AbortBy, Seconds, OwnTokens;
  }

  lemma OwnStepKeepsCover(p: Params, s: State, e: Event, w: Process)
    requires ValidParams(p) && 3 * p.beat + 2 * p.latency <= p.ttl
    requires Enabled(p, s, e) && Believes(s, w) && Covered(p, s, w) && Actor(e) == Some(w)
    requires Believes(Step(p, s, e), w)
    ensures Covered(p, Step(p, s, e), w)
  {
    CoveredIsLive(p, s, w);
    var s' := Step(p, s, e);
    if e.Execute? {
      SecondsMonotone(AbortBy(p, PhaseOf(s', w).hold), s.now + p.ttl);
    } else if e.StrayRenew? {
      RenewalOnlyExtends(p, s, w);
    } else {
      SecondsMonotone(AbortBy(p, PhaseOf(s', w).hold), AbortBy(p, PhaseOf(s, w).hold));
    }
  }

  lemma AcquiringCovers(p: Params, s: State, e: Event, w: Process)
    requires ValidParams(p) && 3 * p.beat + 2 * p.latency <= p.ttl
    requires Enabled(p, s, e) && !Believes(s, w) && Believes(Step(p, s, e), w)
    requires e.Acquire? ==> !OwnRowLive(p, s, e.w)
    ensures Covered(p, Step(p, s, e), w)
  {
  }

  lemma StepKeepsInv(p: Params, s: State, e: Event)
    requires ValidParams(p) && 3 * p.beat + 2 * p.latency <= p.ttl
    requires Inv(p, s) && Enabled(p, s, e)
    requires e.Acquire? ==> !OwnRowLive(p, s, e.w)
    ensures Inv(p, Step(p, s, e))
  {
    StepKeepsOwnTokens(p, s, e);
    hide Believes, Covered, Enabled, OwnRowLive, Actor, OwnTokens;
    forall w: Process | Believes(Step(p, s, e), w) ensures Covered(p, Step(p, s, e), w) {
      if !Believes(s, w) {
        AcquiringCovers(p, s, e, w);
      } else if Actor(e) == Some(w) {
        OwnStepKeepsCover(p, s, e, w);
      } else {
        OthersKeepCover(p, s, e, w);
      }
    }
  }

  // Until the holder decides, `now` plus the TTL reaches past its deadline.
  lemma RenewalOnlyExtends(p: Params, s: State, w: Process)
    requires ValidParams(p) && 3 * p.beat + 2 * p.latency <= p.ttl
    requires Covered(p, s, w)
    ensures Seconds(AbortBy(p, PhaseOf(s, w).hold)) <= Seconds(s.now + p.ttl)
  {
  }

  lemma {:induction false} RunKeepsInv(p: Params, s: State, es: seq<Event>)
    requires ValidParams(p) && 3 * p.beat + 2 * p.latency <= p.ttl
    requires Inv(p, s) && Legal(p, s, es) && FreshAcquisitions(p, s, es)
    ensures Inv(p, After(p, s, es))
    decreases |es|
  {
    if es != [] {
      StepKeepsInv(p, s, es[0]);
      RunKeepsInv(p, Step(p, s, es[0]), es[1..]);
    }
  }

  /**
    Mutual exclusion in every run; moreover the holder's row is live and carries its own
    fence, so none of its renewals can fail by expiry or theft.
   */
  lemma ExclusiveInEveryRun(p: Params, start: nat, es: seq<Event>)
    requires ValidParams(p) && 3 * p.beat + 2 * p.latency <= p.ttl
    requires Legal(p, Init(start), es) && FreshAcquisitions(p, Init(start), es)
    ensures Exclusive(After(p, Init(start), es))
    ensures
      var s := After(p, Init(start), es);
      forall w :: Believes(s, w) ==> Owns(s.table, p.name, p.id(w), PhaseOf(s, w).hold.token) && OwnRowLive(p, s, w)
  {
    RunKeepsInv(p, Init(start), es);
    var s := After(p, Init(start), es);
    forall w | Believes(s, w)
      ensures Owns(s.table, p.name, p.id(w), PhaseOf(s, w).hold.token) && OwnRowLive(p, s, w)
    {
      CoveredIsLive(p, s, w);
    }
  }

  // ---- One heartbeat -------------------------------------------------------------------------

  lemma After3(p: Params, s: State, a: Event, b: Event, c: Event)
    requires Enabled(p, s, a) && Enabled(p, Step(p, s, a), b) && Enabled(p, Step(p, Step(p, s, a), b), c)
    ensures Legal(p, s, [a, b, c]) && After(p, s, [a, b, c]) == Step(p, Step(p, Step(p, s, a), b), c)
  {
    hide Enabled, Step;
    var u := Step(p, s, a);
    var v := Step(p, u, b);
    assert [a, b, c][1..] == [b, c] && [b, c][1..] == [c] && [c][1..] == [];
    assert Legal(p, Step(p, v, c), []) && Legal(p, v, [c]) && Legal(p, u, [b, c]);
    assert After(p, v, [c]) == Step(p, v, c) && After(p, u, [b, c]) == After(p, v, [c]);
  }

  /** A believer whose heartbeat gets through stays one: its count is set back and its row lasts a whole TTL more. */
  lemma HeartbeatRenews(p: Params, s: State, w: Process)
    requires Believes(s, w) && Covered(p, s, w)
    requires var h := PhaseOf(s, w).hold; h.flight.None? && h.tickDue == s.now
    ensures var es := [Tick(w), Execute(w), Settle(w)];
      && Legal(p, s, es)
      && var v := After(p, s, es);
         && Believes(v, w) && PhaseOf(v, w).hold == PhaseOf(s, w).hold.(tickDue := s.now + p.beat, failures := 0)
         && Owns(v.table, p.name, p.id(w), PhaseOf(s, w).hold.token)
         && v.table[p.name].expiresAt == Seconds(s.now + p.ttl)
  {
    CoveredIsLive(p, s, w);
    After3(p, s, Tick(w), Execute(w), Settle(w));
    hide Legal, After, AbortBy;
  }

  /** A heartbeat that fails costs one of three tries, and with the third the belief. */
  lemma HeartbeatFails(p: Params, s: State, w: Process)
    requires Believes(s, w)
    requires var h := PhaseOf(s, w).hold; h.flight.None? && h.tickDue == s.now
    ensures var es := [Tick(w), Fault(w), Settle(w)];
      && Legal(p, s, es)
      && var v := After(p, s, es);
         && v.table == s.table && PhaseOf(v, w).Holding?
         && PhaseOf(v, w).hold.failures == PhaseOf(s, w).hold.failures + 1
         && (Believes(v, w) <==> PhaseOf(s, w).hold.failures < 2)
  {
    After3(p, s, Tick(w), Fault(w), Settle(w));
    hide Legal, After;
  }

  /** A release whose unlock gets through hands the lock over: any process that then tries gets it. */
  lemma ReleaseHandsOver(p: Params, s: State, w: Process, v: Process, drawn: Token)
    requires ValidParams(p) && Believes(s, w) && Covered(p, s, w)
    requires v != w && PhaseOf(s, v).Idle? && drawn !in s.issued
    ensures var es := [StopBeat(w), Unlock(w), Acquire(v, drawn, s.now + 1)];
      && Legal(p, s, es)
      && var u := After(p, s, es);
         && !Believes(u, w) && Believes(u, v) && PhaseOf(u, v).hold.token == drawn
  {
    After3(p, s, StopBeat(w), Unlock(w), Acquire(v, drawn, s.now + 1));
    hide Legal, After, AbortBy;
  }

  /** A process that has crashed takes no part any more. */
  lemma {:induction false} CrashIsFinal(p: Params, s: State, es: seq<Event>, w: Process)
    requires Enabled(p, s, Crash(w)) && Legal(p, Step(p, s, Crash(w)), es)
    ensures !Believes(After(p, Step(p, s, Crash(w)), es), w)
  {
    StaysDead(p, Step(p, s, Crash(w)), es, w);
  }

  lemma {:induction false} StaysDead(p: Params, s: State, es: seq<Event>, w: Process)
    requires Legal(p, s, es) && PhaseOf(s, w).Dead?
    ensures PhaseOf(After(p, s, es), w).Dead?
    decreases |es|
  {
    if es != [] {
      assert PhaseOf(Step(p, s, es[0]), w).Dead?;
      StaysDead(p, Step(p, s, es[0]), es[1..], w);
    }
  }

  // ---- The bound is exact --------------------------------------------------------------------

  ghost predicate SafeForAllRuns(p: Params) {
    forall start: nat, es: seq<Event> ::
      Legal(p, Init(start), es) && FreshAcquisitions(p, Init(start), es) ==> Exclusive(After(p, Init(start), es))
  }

  /** `es` leads from `s` to `s'`, with fresh acquisitions only. */
  ghost predicate Leads(p: Params, s: State, es: seq<Event>, s': State) {
    Legal(p, s, es) && FreshAcquisitions(p, s, es) && After(p, s, es) == s'
  }

  lemma {:induction false} LeadsTo(p: Params, s: State, es: seq<Event>, mid: State, e: Event)
    requires Leads(p, s, es, mid) && Enabled(p, mid, e)
    requires e.Acquire? ==> !OwnRowLive(p, mid, e.w)
    ensures Leads(p, s, es + [e], Step(p, mid, e))
    decreases |es|
  {
    if es == [] {
      assert ([e])[1..] == [];
    } else {
      assert (es + [e])[1..] == es[1..] + [e];
      LeadsTo(p, Step(p, s, es[0]), es[1..], mid, e);
    }
  }

  // Worker 1 holding the row it acquired at `start`, at time `now`, after `f` failed renewals.
  function Waiting(p: Params, start: nat, now: nat, tickDue: nat, f: nat, flight: Option<Flight>): State {
    State(now, map[p.name := Row(p.id(1), Seconds(start + p.ttl), Some(0), 0)],
          map[1 := Holding(Hold(0, tickDue, f, flight, false))], {0})
  }

  // From a waiting state, time passes to `to` before the next tick.
  lemma Wait(p: Params, start: nat, es: seq<Event>, now: nat, tickDue: nat, f: nat, flight: Option<Flight>, to: nat)
    requires Leads(p, Init(start), es, Waiting(p, start, now, tickDue, f, flight))
    requires now <= to <= if flight.Some? then flight.value.deadline else tickDue
    ensures Leads(p, Init(start), es + [Advance(to)], Waiting(p, start, to, tickDue, f, flight))
  {
    LeadsTo(p, Init(start), es, Waiting(p, start, now, tickDue, f, flight), Advance(to));
  }

  // A renewal that fails at once.
  lemma FailAtOnce(p: Params, start: nat, es: seq<Event>, now: nat, f: nat)
    requires Leads(p, Init(start), es, Waiting(p, start, now, now, f, None)) && f < 2
    ensures Leads(p, Init(start), es + [Tick(1)] + [Fault(1)] + [Settle(1)],
                  Waiting(p, start, now, now + p.beat, f + 1, None))
  {
    LeadsTo(p, Init(start), es, Waiting(p, start, now, now, f, None), Tick(1));
    var s1 := Waiting(p, start, now, now + p.beat, f, Some(Flight(now + p.latency, None)));
    assert Step(p, Waiting(p, start, now, now, f, None), Tick(1)) == s1;
    LeadsTo(p, Init(start), es + [Tick(1)], s1, Fault(1));
    var s2 := Waiting(p, start, now, now + p.beat, f, Some(Flight(now + p.latency, Some(false))));
    assert Step(p, s1, Fault(1)) == s2;
    LeadsTo(p, Init(start), es + [Tick(1)] + [Fault(1)], s2, Settle(1));
    assert Step(p, s2, Settle(1)) == Waiting(p, start, now, now + p.beat, f + 1, None);
  }

  ghost predicate Intruded(p: Params, start: nat) {
    exists es ::
      Legal(p, Init(start), es) && FreshAcquisitions(p, Init(start), es) && !Exclusive(After(p, Init(start), es))
  }

  // Once the row has lapsed a rival acquires it while worker 1 still believes.
  lemma RivalIntrudes(p: Params, start: nat, es: seq<Event>, now: nat, tickDue: nat, f: nat, flight: Option<Flight>)
    requires ValidParams(p)
    requires Leads(p, Init(start), es, Waiting(p, start, now, tickDue, f, flight))
    requires Seconds(start + p.ttl) < Seconds(now)
    ensures Intruded(p, start)
  {
    var s := Waiting(p, start, now, tickDue, f, flight);
    var e := Acquire(2, 1, now + 1);
    LeadsTo(p, Init(start), es, s, e);
    var s' := Step(p, s, e);
    assert Believes(s', 1) && Believes(s', 2);
    assert !Exclusive(After(p, Init(start), es + [e]));
  }

  // A start at which the TTL ends with its last second: one millisecond later the row is purgeable.
  function BadStart(ttl: nat): nat {
    999 + 1000 * ttl - ttl
  }

  lemma BadStartLapses(ttl: nat)
    ensures Seconds(BadStart(ttl) + ttl) < Seconds(BadStart(ttl) + ttl + 1)
  {
  }

  lemma LateFirstTick(p: Params, start: nat)
    requires ValidParams(p)
    ensures Leads(p, Init(start), [Acquire(1, 0, start + p.latency + p.beat)],
                  Waiting(p, start, start, start + p.latency + p.beat, 0, None))
  {
  }

  lemma RenewalSent(p: Params, start: nat, es: seq<Event>, now: nat, f: nat)
    requires Leads(p, Init(start), es, Waiting(p, start, now, now, f, None))
    ensures Leads(p, Init(start), es + [Tick(1)],
                  Waiting(p, start, now, now + p.beat, f, Some(Flight(now + p.latency, None))))
  {
    LeadsTo(p, Init(start), es, Waiting(p, start, now, now, f, None), Tick(1));
    assert Step(p, Waiting(p, start, now, now, f, None), Tick(1))
        == Waiting(p, start, now, now + p.beat, f, Some(Flight(now + p.latency, None)));
  }

  // Renewals go on failing until the row has lapsed, at the latest during the third one.
  lemma {:induction false} LapseBeforeThird(p: Params, start: nat, es: seq<Event>, now: nat, due: nat, f: nat)
    requires ValidParams(p) && f <= 2 && now <= due
    requires Leads(p, Init(start), es, Waiting(p, start, now, due, f, None))
    requires now < start + p.ttl + 1 <= due + TriesLeft(p.beat, f) + p.latency
    requires Seconds(start + p.ttl) < Seconds(start + p.ttl + 1)
    ensures Intruded(p, start)
    decreases 2 - f
  {
    hide Leads, Waiting, Seconds, Intruded;
    var lapse := start + p.ttl + 1;
    if lapse <= due {
      Wait(p, start, es, now, due, f, None, lapse);
      RivalIntrudes(p, start, es + [Advance(lapse)], lapse, due, f, None);
    } else {
      Wait(p, start, es, now, due, f, None, due);
      var es' := es + [Advance(due)];
      if f < 2 {
        FailAtOnce(p, start, es', due, f);
        LapseBeforeThird(p, start, es' + [Tick(1)] + [Fault(1)] + [Settle(1)], due, due + p.beat, f + 1);
      } else {
        var flight := Some(Flight(due + p.latency, None));
        RenewalSent(p, start, es', due, f);
        Wait(p, start, es' + [Tick(1)], due, due + p.beat, f, flight, lapse);
        RivalIntrudes(p, start, es' + [Tick(1)] + [Advance(lapse)], lapse, due + p.beat, f, flight);
      }
    }
  }

  lemma IntrusionBelowBound(p: Params)
    requires ValidParams(p) && p.ttl < 3 * p.beat + 2 * p.latency
    ensures Intruded(p, BadStart(p.ttl))
  {
    hide Leads, Waiting, Intruded;
    var start, due := BadStart(p.ttl), BadStart(p.ttl) + p.latency + p.beat;
    BadStartLapses(p.ttl);
    LateFirstTick(p, start);
    LapseBeforeThird(p, start, [Acquire(1, 0, due)], start, due, 0);
  }

  /** Mutual exclusion over all runs holds if and only if the TTL covers three heartbeats and two calls. */
  lemma ExclusiveIffTtlCoversThreeBeats(p: Params)
    requires ValidParams(p)
    ensures SafeForAllRuns(p) <==> 3 * p.beat + 2 * p.latency <= p.ttl
  {
    if 3 * p.beat + 2 * p.latency <= p.ttl {
      forall start: nat, es: seq<Event> | Legal(p, Init(start), es) && FreshAcquisitions(p, Init(start), es)
        ensures Exclusive(After(p, Init(start), es))
      {
        ExclusiveInEveryRun(p, start, es);
      }
    } else {
      IntrusionBelowBound(p);
    }
  }

  /**
    Without fresh acquisitions no TTL is enough: a worker whose unlock was lost gets its old
    fence back with the old expiry, and the row lapses before its first heartbeat.
   */
  lemma ReentryDefeatsEveryTtl(p: Params)
    requires ValidParams(p)
    ensures exists es :: Legal(p, Init(BadStart(p.ttl)), es) && !Exclusive(After(p, Init(BadStart(p.ttl)), es))
  {
    var start := BadStart(p.ttl);
    BadStartLapses(p.ttl);
    var lapse := start + p.ttl + 1;
    var es := LeaveRowBehind(p, start);
    var e := Acquire(1, 1, start + p.ttl + p.latency + p.beat);
    var s := Reentered(p, start, start + p.ttl);
    Reach(p, Init(start), es, LeftBehind(p, start, start + p.ttl), e);
    Reach(p, Init(start), es + [e], s, Advance(lapse));
    var s' := Reentered(p, start, lapse);
    Reach(p, Init(start), es + [e] + [Advance(lapse)], s', Acquire(2, 2, lapse + 1));
    assert Believes(Step(p, s', Acquire(2, 2, lapse + 1)), 1) && Believes(Step(p, s', Acquire(2, 2, lapse + 1)), 2);
  }

  /**
    Nor where two processes have one worker id: at whatever TTL, a process that acquires while another
    holds the lock is let in beside it exactly when their ids are equal, and then with the same fence.
   */
  lemma SharedIdDefeatsEveryTtl(p: Params, start: nat, a: Process, b: Process)
    requires ValidParams(p) && a != b
    ensures var es := [Acquire(a, 0, start + 1), Acquire(b, 1, start + 1)];
      && Legal(p, Init(start), es) && Believes(After(p, Init(start), es), a)
      && (Believes(After(p, Init(start), es), b) <==> p.id(a) == p.id(b))
      && (p.id(a) == p.id(b) ==>
            PhaseOf(After(p, Init(start), es), b) == PhaseOf(After(p, Init(start), es), a))
  {
    var e, f := Acquire(a, 0, start + 1), Acquire(b, 1, start + 1);
    Reach(p, Init(start), [], Init(start), e);
    var s := Step(p, Init(start), e);
    assert s == State(start, map[p.name := Row(p.id(a), Seconds(start + p.ttl), Some(0), 0)],
                      map[a := Holding(Hold(0, start + 1, 0, None, false))], {0});
    Reach(p, Init(start), [] + [e], s, f);
    assert [] + [e] + [f] == [e, f];
  }

  // Worker 1's row at time `now`, its unlock having been lost.
  function LeftBehind(p: Params, start: nat, now: nat): State {
    State(now, map[p.name := Row(p.id(1), Seconds(start + p.ttl), Some(0), 0)], map[1 := Idle], {0})
  }

  // .. and worker 1 after it was handed that row again.
  function Reentered(p: Params, start: nat, now: nat): State {
    LeftBehind(p, start, now).(
      phases := map[1 := Holding(Hold(0, start + p.ttl + p.latency + p.beat, 0, None, false))], issued := {0, 1})
  }

  lemma LeaveRowBehind(p: Params, start: nat) returns (es: seq<Event>)
    requires ValidParams(p)
    ensures Legal(p, Init(start), es) && After(p, Init(start), es) == LeftBehind(p, start, start + p.ttl)
  {
    var e0 := Acquire(1, 0, start + 1);
    Reach(p, Init(start), [], Init(start), e0);
    var s0 := Waiting(p, start, start, start + 1, 0, None);
    assert Step(p, Init(start), e0) == s0;
    Reach(p, Init(start), [] + [e0], s0, StopBeat(1));
    var s1 := s0.(phases := map[1 := Releasing(0)]);
    assert Step(p, s0, StopBeat(1)) == s1;
    Reach(p, Init(start), [] + [e0] + [StopBeat(1)], s1, UnlockLost(1));
    assert Step(p, s1, UnlockLost(1)) == LeftBehind(p, start, start);
    Reach(p, Init(start), [] + [e0] + [StopBeat(1)] + [UnlockLost(1)],
          LeftBehind(p, start, start), Advance(start + p.ttl));
    es := [] + [e0] + [StopBeat(1)] + [UnlockLost(1)] + [Advance(start + p.ttl)];
  }

  lemma {:induction false} Reach(p: Params, s: State, es: seq<Event>, mid: State, e: Event)
    requires Legal(p, s, es) && After(p, s, es) == mid && Enabled(p, mid, e)
    ensures Legal(p, s, es + [e]) && After(p, s, es + [e]) == Step(p, mid, e)
    decreases |es|
  {
    if es == [] {
      assert ([e])[1..] == [];
    } else {
      assert (es + [e])[1..] == es[1..] + [e];
      Reach(p, Step(p, s, es[0]), es[1..], mid, e);
    }
  }
}
