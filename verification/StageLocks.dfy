/**
  The orchestrator's record of the stage locks it holds: three maps keyed by
  `runId:stage`, filled on acquisition, emptied on release, and cleared as a whole when
  any run ends.
 */
module StageLocks {
  import opened Wrappers
  import opened FencedLock

  datatype LockInfo = LockInfo(controller: nat, fence: Token)

  /** A row of the lock table as the orchestrator names it: at grant and in each unlock call. */
  datatype Claim = Claim(key: string, fence: Token)

  // `aborted` are the controllers of runs that heartbeats have aborted.
  datatype Book = Book(locks: map<string, LockInfo>, timers: set<string>, failures: map<string, nat>,
                       granted: set<Claim>, unlocked: set<Claim>, aborted: set<nat>)

  function HeartbeatKey(runId: string, stage: string): string {
    runId + ":" + stage
  }

  function LockKey(tenant: string, stage: string, runId: string): string {
    "pipeline:" + tenant + ":" + stage + ":" + runId
  }

  /** String.prototype.split(':'). */
  function Split(s: string): (parts: seq<string>)
    ensures |parts| >= 1
  {
    if s == "" then [""] else Prepend(s[0], Split(s[1..]))
  }

  // The parts of a string one character longer.
  function Prepend(c: char, parts: seq<string>): (r: seq<string>)
    requires |parts| >= 1
    ensures |r| >= 1
  {
    if c == ':' then [""] + parts else [[c] + parts[0]] + parts[1..]
  }

  // `parts[1] ?? 'unknown'`
  function StageInKey(key: string): string {
    var parts := Split(key);
    if |parts| > 1 then parts[1] else "unknown"
  }

  function Acquire(b: Book, tenant: string, runId: string, stage: string, info: LockInfo): Book {
    var key := HeartbeatKey(runId, stage);
    b.(locks := b.locks[key := info], timers := b.timers + {key},
       failures := if key in b.timers then b.failures else b.failures[key := 0],
       granted := b.granted + {Claim(LockKey(tenant, stage, runId), info.fence)})
  }

  /** A heartbeat callback resuming with its answer; `counted` is the failure count read when it fired. */
  function Answer(b: Book, key: string, counted: nat, renewed: bool): Book {
    var failures := if renewed then 0 else counted + 1;
    b.(failures := b.failures[key := failures],
       aborted := if failures >= 3 && key in b.locks then b.aborted + {b.locks[key].controller} else b.aborted)
  }

  /** Release up to its await: the heartbeat stopped, the unlock sent. */
  function StartRelease(b: Book, tenant: string, runId: string, stage: string): Book {
    var key := HeartbeatKey(runId, stage);
    if key !in b.locks then b
    else b.(timers := b.timers - {key}, failures := b.failures - {key},
            unlocked := b.unlocked + {Claim(LockKey(tenant, stage, runId), b.locks[key].fence)})
  }

  /** .. and after it: the entry dropped. */
  function Forget(b: Book, runId: string, stage: string): Book {
    b.(locks := b.locks - {HeartbeatKey(runId, stage)})
  }

  function Release(b: Book, tenant: string, runId: string, stage: string): Book {
    Forget(StartRelease(b, tenant, runId, stage), runId, stage)
  }

  function StopAll(b: Book): Book {
    b.(timers := {}, failures := map[])
  }

  // Cleanup's unlock for one entry of the map, whichever run made it.
  function UnlockEntry(b: Book, tenant: string, runId: string, key: string): Book {
    if key !in b.locks then b
    else b.(unlocked := b.unlocked + {Claim(LockKey(tenant, StageInKey(key), runId), b.locks[key].fence)})
  }

  function CleanupCalls(b: Book, tenant: string, runId: string): set<Claim> {
    set k | k in b.locks :: Claim(LockKey(tenant, StageInKey(k), runId), b.locks[k].fence)
  }

  function Cleanup(b: Book, tenant: string, runId: string): Book {
    b.(locks := map[], timers := {}, failures := map[], unlocked := b.unlocked + CleanupCalls(b, tenant, runId))
  }

  /** All unlocks sent once cleanup has been through these entries. */
  function UnlockedFor(b: Book, keys: set<string>, tenant: string, runId: string): set<Claim> {
    b.unlocked + set k | k in keys && k in b.locks :: Claim(LockKey(tenant, StageInKey(k), runId), b.locks[k].fence)
  }

  lemma OneMoreCall(b: Book, keys: set<string>, k: string, tenant: string, runId: string)
    requires k in b.locks
    ensures UnlockedFor(b, keys + {k}, tenant, runId) ==
      UnlockedFor(b, keys, tenant, runId) + {Claim(LockKey(tenant, StageInKey(k), runId), b.locks[k].fence)}
  {
  }

  lemma NoCalls(b: Book, tenant: string, runId: string)
    ensures UnlockedFor(b, {}, tenant, runId) == b.unlocked
  {
  }

  lemma AllCalls(b: Book, tenant: string, runId: string)
    ensures UnlockedFor(b, b.locks.Keys, tenant, runId) == Cleanup(b, tenant, runId).unlocked
  {
  }

  // ---- Keys ----------------------------------------------------------------------------------

  lemma PrependToConcat(c: char, a: seq<string>, b: seq<string>)
    requires |a| >= 1
    ensures Prepend(c, a + b) == Prepend(c, a) + b
  {
  }

  lemma {:induction false} SplitAtColon(a: string, b: string)
    ensures Split(a + ":" + b) == Split(a) + Split(b)
  {
    if a == "" {
      assert a + ":" + b == ":" + b && (":" + b)[1..] == b;
    } else {
      SplitAtColon(a[1..], b);
      PrependToConcat(a[0], Split(a[1..]), Split(b));
      assert (a + ":" + b)[0] == a[0] && (a + ":" + b)[1..] == a[1..] + ":" + b;
    }
  }

  lemma {:induction false} SplitColonFree(s: string)
    ensures ':' !in s <==> |Split(s)| == 1
    ensures ':' !in s ==> Split(s) == [s]
  {
    if s != "" {
      SplitColonFree(s[1..]);
      assert s == [s[0]] + s[1..];
    }
  }

  /** The stage name cleanup reads out of a map key is right exactly when the run id does not put another one first. */
  lemma StageReadBack(runId: string, stage: string)
    requires ':' !in stage
    ensures StageInKey(HeartbeatKey(runId, stage)) == stage
            <==> ':' !in runId || (|Split(runId)| > 1 && Split(runId)[1] == stage)
  {
    SplitAtColon(runId, stage);
    SplitColonFree(stage);
    SplitColonFree(runId);
  }

  lemma LockKeysDiffer(tenant: string, s1: string, run1: string, s2: string, run2: string)
    requires ':' !in run1 && ':' !in run2 && run1 != run2
    ensures LockKey(tenant, s1, run1) != LockKey(tenant, s2, run2)
  {
    var p1, p2 := "pipeline:" + tenant + ":" + s1, "pipeline:" + tenant + ":" + s2;
    SplitAtColon(p1, run1);
    SplitAtColon(p2, run2);
    SplitColonFree(run1);
    SplitColonFree(run2);
    assert Split(p1 + ":" + run1)[|Split(p1)|] == run1;
    var k1, k2 := Split(p1 + ":" + run1), Split(p2 + ":" + run2);
    assert k1[|k1| - 1] == run1 && k2[|k2| - 1] == run2;
  }

  // ---- Leaks ---------------------------------------------------------------------------------

  /** Every grant since `start` is unlocked or still on record under its own key. */
  ghost predicate Accounted(b: Book, start: set<Claim>, tenant: string, runId: string) {
    && (forall c | c in b.granted - start :: c in b.unlocked || OnRecord(b, tenant, runId, c))
    && (forall k | k in b.locks :: exists stage :: ':' !in stage && k == HeartbeatKey(runId, stage))
    && b.timers <= b.locks.Keys
  }

  ghost predicate OnRecord(b: Book, tenant: string, runId: string, c: Claim) {
    exists stage :: ':' !in stage && HeartbeatKey(runId, stage) in b.locks
                    && c == Claim(LockKey(tenant, stage, runId), b.locks[HeartbeatKey(runId, stage)].fence)
  }

  lemma NothingGrantedYet(b: Book, tenant: string, runId: string)
    requires b.locks == map[] && b.timers == {}
    ensures Accounted(b, b.granted, tenant, runId)
  {
  }

  lemma AcquireAccounts(b: Book, start: set<Claim>, tenant: string, runId: string, stage: string, info: LockInfo)
    requires Accounted(b, start, tenant, runId) && ':' !in stage && HeartbeatKey(runId, stage) !in b.locks
    ensures Accounted(Acquire(b, tenant, runId, stage, info), start, tenant, runId)
  {
  }

  lemma StartReleaseAccounts(b: Book, start: set<Claim>, tenant: string, runId: string, stage: string)
    requires Accounted(b, start, tenant, runId)
    ensures Accounted(StartRelease(b, tenant, runId, stage), start, tenant, runId)
    ensures Discharged(StartRelease(b, tenant, runId, stage), tenant, runId, stage)
  {
    var v := StartRelease(b, tenant, runId, stage);
    forall c | c in v.granted - start ensures c in v.unlocked || OnRecord(v, tenant, runId, c) {
      assert OnRecord(b, tenant, runId, c) ==> OnRecord(v, tenant, runId, c);
    }
  }

  /** Nothing is owed for the entry any more: no timer, and its unlock sent. */
  predicate Discharged(b: Book, tenant: string, runId: string, stage: string) {
    var key := HeartbeatKey(runId, stage);
    key !in b.timers && (key in b.locks ==> Claim(LockKey(tenant, stage, runId), b.locks[key].fence) in b.unlocked)
  }

  lemma ForgetAccounts(b: Book, start: set<Claim>, tenant: string, runId: string, stage: string)
    requires Accounted(b, start, tenant, runId) && Discharged(b, tenant, runId, stage) && ':' !in stage
    ensures Accounted(Forget(b, runId, stage), start, tenant, runId)
  {
    var v := Forget(b, runId, stage);
    forall c | c in v.granted - start
      ensures c in v.unlocked || OnRecord(v, tenant, runId, c)
    {
      if OnRecord(b, tenant, runId, c) {
        var st :| ':' !in st && HeartbeatKey(runId, st) in b.locks
                  && c == Claim(LockKey(tenant, st, runId), b.locks[HeartbeatKey(runId, st)].fence);
        KeysDiffer(runId, st, stage);
        assert st != stage ==> HeartbeatKey(runId, st) in v.locks;
      }
    }
  }

  lemma KeysDiffer(runId: string, a: string, b: string)
    ensures HeartbeatKey(runId, a) == HeartbeatKey(runId, b) <==> a == b
  {
    assert HeartbeatKey(runId, a)[|runId| + 1..] == a && HeartbeatKey(runId, b)[|runId| + 1..] == b;
  }

  /** Equal but for the failure counters and the aborted controllers: all that heartbeats touch. */
  predicate SameLocks(b: Book, v: Book) {
    v.locks == b.locks && v.timers == b.timers && v.granted == b.granted && v.unlocked == b.unlocked
  }

  lemma SameLocksAccounts(b: Book, v: Book, start: set<Claim>, tenant: string, runId: string)
    requires Accounted(b, start, tenant, runId) && SameLocks(b, v)
    ensures Accounted(v, start, tenant, runId)
  {
    forall c | c in v.granted - start ensures c in v.unlocked || OnRecord(v, tenant, runId, c) {
      assert OnRecord(b, tenant, runId, c) ==> OnRecord(v, tenant, runId, c);
    }
  }

  /** With a colon-free run id, cleanup unlocks whatever is left under the right row and fence. */
  lemma CleanupUnlocksAll(b: Book, start: set<Claim>, tenant: string, runId: string)
    requires Accounted(b, start, tenant, runId) && ':' !in runId
    ensures b.granted - start <= Cleanup(b, tenant, runId).unlocked
  {
    forall c | c in b.granted - start
      ensures c in Cleanup(b, tenant, runId).unlocked
    {
      if c !in b.unlocked {
        var st :| ':' !in st && HeartbeatKey(runId, st) in b.locks
                  && c == Claim(LockKey(tenant, st, runId), b.locks[HeartbeatKey(runId, st)].fence);
        StageReadBack(runId, st);
        var key := HeartbeatKey(runId, st);
        assert c == Claim(LockKey(tenant, StageInKey(key), runId), b.locks[key].fence);
      }
    }
  }

  lemma SweptClean(b: Book, v: Book, hasLock: bool, start: set<Claim>, tenant: string, runId: string)
    requires Accounted(b, start, tenant, runId) && (!hasLock ==> b.locks == map[])
    requires SameLocks(if hasLock then Cleanup(b, tenant, runId) else StopAll(b), v)
    ensures v.locks == map[] && v.timers == {} && (hasLock && ':' !in runId ==> v.granted - start <= v.unlocked)
  {
    hide Accounted;
    if hasLock && ':' !in runId {
      CleanupUnlocksAll(b, start, tenant, runId);
    }
  }

  /**
    Cleanup is not confined to its own run: a lock another run holds loses its heartbeat and
    its fence, no call is made for its row, and that run's own release then does nothing.
   */
  lemma CleanupForgetsOtherRuns(b: Book, tenant: string, ended: string, other: string, stage: string)
    requires ':' !in ended && ':' !in other && ended != other
    requires HeartbeatKey(other, stage) in b.locks
    requires Claim(LockKey(tenant, stage, other), b.locks[HeartbeatKey(other, stage)].fence) !in b.unlocked
    ensures
      var b' := Cleanup(b, tenant, ended);
      && HeartbeatKey(other, stage) !in b'.timers && HeartbeatKey(other, stage) !in b'.locks
      && Claim(LockKey(tenant, stage, other), b.locks[HeartbeatKey(other, stage)].fence) !in b'.unlocked
      && Release(b', tenant, other, stage) == b'
  {
    var mine := Claim(LockKey(tenant, stage, other), b.locks[HeartbeatKey(other, stage)].fence);
    forall k | k in b.locks
      ensures Claim(LockKey(tenant, StageInKey(k), ended), b.locks[k].fence) != mine
    {
      LockKeysDiffer(tenant, StageInKey(k), ended, stage, other);
    }
  }

  // ---- Histories with heartbeat answers at any point -----------------------------------------

  datatype Event =
    | Granted(tenant: string, runId: string, stage: string, info: LockInfo)
    | Answered(key: string, counted: nat, renewed: bool)
    | ReleaseSent(tenant: string, runId: string, stage: string)
    | Forgotten(runId: string, stage: string)
    | Swept                                                       // cleanup's #stopAllHeartbeats
    | EntryUnlocked(tenant: string, runId: string, key: string)
    | Emptied                                                     // .. and its stageLocks.clear

  function Apply(b: Book, e: Event): Book {
    match e
    case Granted(tenant, runId, stage, info) => Acquire(b, tenant, runId, stage, info)
    case Answered(key, counted, renewed) => Answer(b, key, counted, renewed)
    case ReleaseSent(tenant, runId, stage) => StartRelease(b, tenant, runId, stage)
    case Forgotten(runId, stage) => Forget(b, runId, stage)
    case Swept => StopAll(b)
    case EntryUnlocked(tenant, runId, key) => UnlockEntry(b, tenant, runId, key)
    case Emptied => b.(locks := map[])
  }

  /** Latest event last. */
  function After(b: Book, es: seq<Event>): Book {
    if es == [] then b else Apply(After(b, es[..|es| - 1]), es[|es| - 1])
  }

  /** The event sets the counter of `key`, clears it, or leaves it. */
  predicate Sets(e: Event, key: string) {
    || (e.Answered? && e.key == key)
    || (e.Granted? && HeartbeatKey(e.runId, e.stage) == key)
  }

  predicate Clears(b: Book, e: Event, key: string) {
    || e.Swept?
    || (e.ReleaseSent? && HeartbeatKey(e.runId, e.stage) == key && key in b.locks)
  }

  ghost predicate UnclearedSince(b: Book, es: seq<Event>, i: nat, key: string) {
    forall j | i < j < |es| :: !Clears(After(b, es[..j]), es[j], key)
  }

  /** Some event set the counter, and none since has cleared it. */
  ghost predicate SetSinceCleared(b: Book, es: seq<Event>, key: string) {
    exists i :: 0 <= i < |es| && Sets(es[i], key) && UnclearedSince(b, es, i, key)
  }

  const EMPTY_BOOK: Book := Book(map[], {}, map[], {}, {}, {})

  lemma {:induction false} TimersAreCounted(es: seq<Event>)
    ensures After(EMPTY_BOOK, es).timers <= After(EMPTY_BOOK, es).failures.Keys
  {
    if es != [] {
      TimersAreCounted(es[..|es| - 1]);
    }
  }

  lemma UnclearedSnoc(b: Book, es: seq<Event>, e: Event, i: nat, key: string)
    requires i < |es|
    ensures UnclearedSince(b, es + [e], i, key) <==> UnclearedSince(b, es, i, key) && !Clears(After(b, es), e, key)
  {
    hide After, Clears;
    var all := es + [e];
    assert all[..|es|] == es;
    assert forall j | 0 <= j < |es| :: all[..j] == es[..j] && all[j] == es[j];
    if UnclearedSince(b, all, i, key) {
      assert !Clears(After(b, all[..|es|]), all[|es|], key);
      forall j | i < j < |es| ensures !Clears(After(b, es[..j]), es[j], key) {
        assert !Clears(After(b, all[..j]), all[j], key);
      }
    }
  }

  lemma SetSinceClearedSnoc(es: seq<Event>, e: Event, key: string)
    ensures SetSinceCleared(EMPTY_BOOK, es + [e], key) <==>
      Sets(e, key) || (SetSinceCleared(EMPTY_BOOK, es, key) && !Clears(After(EMPTY_BOOK, es), e, key))
  {
    hide After, Sets, Clears, UnclearedSince;
    var all := es + [e];
    assert UnclearedSince(EMPTY_BOOK, all, |es|, key) by { LastIsUncleared(all, key); }
    assert Sets(e, key) ==> Sets(all[|es|], key);
    forall i | 0 <= i < |es|
      ensures Sets(all[i], key) && UnclearedSince(EMPTY_BOOK, all, i, key) <==>
        Sets(es[i], key) && UnclearedSince(EMPTY_BOOK, es, i, key) && !Clears(After(EMPTY_BOOK, es), e, key)
    {
      assert all[i] == es[i];
      UnclearedSnoc(EMPTY_BOOK, es, e, i, key);
    }
  }

  lemma LastIsUncleared(es: seq<Event>, key: string)
    requires es != []
    ensures UnclearedSince(EMPTY_BOOK, es, |es| - 1, key)
  {
  }

  lemma CounterStep(b: Book, e: Event, key: string)
    requires b.timers <= b.failures.Keys
    ensures key in Apply(b, e).failures <==> Sets(e, key) || (key in b.failures && !Clears(b, e, key))
  {
  }

  /**
    In any history of any runs, a failure counter remains exactly when an acquisition or a heartbeat's
    answer came after its key was last cleared: a release or a cleanup does not wait for the answers
    still under way.
   */
  lemma {:induction false} CounterRemainsIff(es: seq<Event>, key: string)
    ensures key in After(EMPTY_BOOK, es).failures <==> SetSinceCleared(EMPTY_BOOK, es, key)
  {
    if es != [] {
      var before, e := es[..|es| - 1], es[|es| - 1];
      assert es == before + [e];
      CounterRemainsIff(before, key);
      TimersAreCounted(before);
      SetSinceClearedSnoc(before, e, key);
      AfterSnoc(EMPTY_BOOK, before, e);
      hide SetSinceCleared, After, Apply, Sets, Clears;
      CounterStep(After(EMPTY_BOOK, before), e, key);
    }
  }

  lemma AfterSnoc(b: Book, es: seq<Event>, e: Event)
    ensures After(b, es + [e]) == Apply(After(b, es), e)
  {
    assert (es + [e])[..|es|] == es;
  }

  // ---- What the book holds, read off the history ---------------------------------------------

  datatype Fact =
    | OnFile(key: string, info: LockInfo)
    | Beats(key: string)
    | Counts(key: string, count: nat)
    | IsGranted(claim: Claim)
    | IsUnlocked(claim: Claim)
    | IsAborted(controller: nat)

  predicate Holds(b: Book, f: Fact) {
    match f
    case OnFile(key, info) => key in b.locks && b.locks[key] == info
    case Beats(key) => key in b.timers
    case Counts(key, count) => key in b.failures && b.failures[key] == count
    case IsGranted(claim) => claim in b.granted
    case IsUnlocked(claim) => claim in b.unlocked
    case IsAborted(controller) => controller in b.aborted
  }

  predicate GrantsKey(e: Event, key: string) {
    e.Granted? && HeartbeatKey(e.runId, e.stage) == key
  }

  // The unlock call a release or a cleanup makes for an entry on file, under the name each gives the row.
  predicate Unlocks(b: Book, e: Event, c: Claim) {
    match e
    case ReleaseSent(tenant, runId, stage) =>
      HeartbeatKey(runId, stage) in b.locks
      && c == Claim(LockKey(tenant, stage, runId), b.locks[HeartbeatKey(runId, stage)].fence)
    case EntryUnlocked(tenant, runId, key) =>
      key in b.locks && c == Claim(LockKey(tenant, StageInKey(key), runId), b.locks[key].fence)
    case _ => false
  }

  /** The answer makes three failures in a row or more, and finds the lock on file with this controller. */
  predicate Forfeits(b: Book, e: Event, controller: nat) {
    e.Answered? && !e.renewed && e.counted >= 2 && e.key in b.locks && b.locks[e.key].controller == controller
  }

  // A grant starts counting afresh, unless the heartbeat of its key is still running.
  predicate CountsAfresh(b: Book, e: Event, key: string) {
    GrantsKey(e, key) && key !in b.timers
  }

  predicate Brings(b: Book, e: Event, f: Fact) {
    match f
    case OnFile(key, info) => GrantsKey(e, key) && e.info == info
    case Beats(key) => GrantsKey(e, key)
    case Counts(key, count) =>
      || (CountsAfresh(b, e, key) && count == 0)
      || (e.Answered? && e.key == key && count == if e.renewed then 0 else e.counted + 1)
    case IsGranted(claim) => e.Granted? && claim == Claim(LockKey(e.tenant, e.stage, e.runId), e.info.fence)
    case IsUnlocked(claim) => Unlocks(b, e, claim)
    case IsAborted(controller) => Forfeits(b, e, controller)
  }

  predicate Ends(b: Book, e: Event, f: Fact) {
    match f
    case OnFile(key, _) =>
      GrantsKey(e, key) || e.Emptied? || (e.Forgotten? && HeartbeatKey(e.runId, e.stage) == key)
    case Beats(key) => Clears(b, e, key)
    case Counts(key, _) => Clears(b, e, key) || (e.Answered? && e.key == key) || CountsAfresh(b, e, key)
    case _ => false
  }

  lemma FactStep(b: Book, e: Event, f: Fact)
    ensures Holds(Apply(b, e), f) <==> Brings(b, e, f) || (Holds(b, f) && !Ends(b, e, f))
  {
  }

  /** The book before step `i`. */
  function Before(es: seq<Event>, i: nat): Book
    requires i <= |es|
  {
    After(EMPTY_BOOK, es[..i])
  }

  ghost predicate BroughtAt(es: seq<Event>, i: nat, f: Fact) {
    i < |es| && Brings(Before(es, i), es[i], f)
  }

  ghost predicate EndedAt(es: seq<Event>, i: nat, f: Fact) {
    i < |es| && Ends(Before(es, i), es[i], f)
  }

  ghost predicate Stands(es: seq<Event>, n: nat, f: Fact) {
    exists i: nat :: i < n && BroughtAt(es, i, f) && forall j: nat | i < j < n :: !EndedAt(es, j, f)
  }

  lemma StandsNext(es: seq<Event>, n: nat, f: Fact)
    ensures Stands(es, n + 1, f) <==> BroughtAt(es, n, f) || (Stands(es, n, f) && !EndedAt(es, n, f))
  {
    hide BroughtAt, EndedAt;
    if Stands(es, n, f) && !EndedAt(es, n, f) {
      var i: nat :| i < n && BroughtAt(es, i, f) && forall j: nat | i < j < n :: !EndedAt(es, j, f);
      assert i < n + 1 && BroughtAt(es, i, f) && forall j: nat | i < j < n + 1 :: !EndedAt(es, j, f);
    }
  }

  /**
    In any history of any runs each entry of the book is there exactly because some event brought it and
    none since has ended it: the locks on file with their fences and controllers, the heartbeats running,
    the counters with their values, the locks granted, the unlocks sent, and the controllers aborted.
   */
  lemma {:induction false} HoldsIff(es: seq<Event>, n: nat, f: Fact)
    requires n <= |es|
    ensures Holds(Before(es, n), f) <==> Stands(es, n, f)
    decreases n
  {
    if n > 0 {
      HoldsIff(es, n - 1, f);
      StandsNext(es, n - 1, f);
      AfterSnoc(EMPTY_BOOK, es[..n - 1], es[n - 1]);
      assert es[..n] == es[..n - 1] + [es[n - 1]];
      FactStep(Before(es, n - 1), es[n - 1], f);
      hide After, Apply, Holds, Brings, Ends, Stands;
    } else {
      assert !Holds(EMPTY_BOOK, f);
    }
  }

  // ---- Cleanup is its events -----------------------------------------------------------------

  function EntriesUnlocked(tenant: string, runId: string, keys: seq<string>): seq<Event> {
    seq(|keys|, i requires 0 <= i < |keys| => EntryUnlocked(tenant, runId, keys[i]))
  }

  function Elements(keys: seq<string>): set<string> {
    set k | k in keys
  }

  lemma {:induction false} EntriesUnlockedOnly(b: Book, tenant: string, runId: string, keys: seq<string>)
    requires forall k <- keys :: k in b.locks
    ensures After(b, EntriesUnlocked(tenant, runId, keys))
         == b.(unlocked := UnlockedFor(b, Elements(keys), tenant, runId))
    decreases |keys|
  {
    if keys == [] {
      NoCalls(b, tenant, runId);
      assert Elements(keys) == {};
    } else {
      var n := |keys| - 1;
      EntriesUnlockedOnly(b, tenant, runId, keys[..n]);
      assert keys == keys[..n] + [keys[n]];
      assert EntriesUnlocked(tenant, runId, keys) ==
        EntriesUnlocked(tenant, runId, keys[..n]) + [EntryUnlocked(tenant, runId, keys[n])];
      AfterSnoc(b, EntriesUnlocked(tenant, runId, keys[..n]), EntryUnlocked(tenant, runId, keys[n]));
      OneMoreCall(b, Elements(keys[..n]), keys[n], tenant, runId);
      assert Elements(keys) == Elements(keys[..n]) + {keys[n]};
      hide After, UnlockedFor;
    }
  }

  /** Sweeping the timers, unlocking the entries in any order and emptying the map is cleanup. */
  lemma CleanupInSteps(b: Book, tenant: string, runId: string, keys: seq<string>)
    requires forall k :: k in keys <==> k in b.locks
    ensures After(b, [Swept] + EntriesUnlocked(tenant, runId, keys) + [Emptied]) == Cleanup(b, tenant, runId)
  {
    var swept := StopAll(b);
    assert After(b, [Swept]) == swept by {
      AfterSnoc(b, [], Swept);
      assert [] + [Swept] == [Swept];
    }
    EntriesUnlockedOnly(swept, tenant, runId, keys);
    AllCalls(swept, tenant, runId);
    assert Elements(keys) == b.locks.Keys;
    AfterConcat(b, [Swept], EntriesUnlocked(tenant, runId, keys));
    AfterSnoc(b, [Swept] + EntriesUnlocked(tenant, runId, keys), Emptied);
    hide After, UnlockedFor;
  }

  // ---- Lost renewals abort the run -----------------------------------------------------------

  ghost predicate ForfeitedAt(es: seq<Event>, i: nat, controller: nat) {
    i < |es| && Forfeits(After(EMPTY_BOOK, es[..i]), es[i], controller)
  }

  /**
    A controller has been aborted exactly when some heartbeat came back with its third failure or a later
    one while the lock was on file with that controller.
   */
  lemma AbortedIff(es: seq<Event>, controller: nat)
    ensures controller in After(EMPTY_BOOK, es).aborted <==> exists i: nat :: ForfeitedAt(es, i, controller)
  {
    HoldsIff(es, |es|, IsAborted(controller));
    assert es[..|es|] == es;
    hide After, Forfeits;
    forall i: nat ensures BroughtAt(es, i, IsAborted(controller)) <==> ForfeitedAt(es, i, controller) {
    }
  }

  /** What a heartbeat reads when its timer fires. */
  function Counter(b: Book, key: string): nat {
    if key in b.failures then b.failures[key] else 0
  }

  // A failed renewal that counts on from the recorded counter.
  predicate Misses(b: Book, e: Event, key: string) {
    e == Answered(key, Counter(b, key), false)
  }

  // The event has nothing to do with this key: neither with its counter nor with its record.
  predicate Elsewhere(e: Event, key: string) {
    match e
    case Answered(k, _, _) => k != key
    case Granted(_, runId, stage, _) => HeartbeatKey(runId, stage) != key
    case ReleaseSent(_, runId, stage) => HeartbeatKey(runId, stage) != key
    case Forgotten(runId, stage) => HeartbeatKey(runId, stage) != key
    case EntryUnlocked(_, _, _) => true
    case _ => false
  }

  /** Nothing but failed renewals of this key, one after another, and events of other keys. */
  ghost predicate OnlyMisses(b: Book, es: seq<Event>, key: string)
    decreases |es|
  {
    es == [] || ((Misses(b, es[0], key) || Elsewhere(es[0], key)) && OnlyMisses(Apply(b, es[0]), es[1..], key))
  }

  function Missed(es: seq<Event>, key: string): nat {
    if es == [] then 0 else (if Elsewhere(es[0], key) then 0 else 1) + Missed(es[1..], key)
  }

  lemma MissStep(b: Book, e: Event, key: string)
    requires key in b.locks && (Misses(b, e, key) || Elsewhere(e, key))
    ensures var v := Apply(b, e);
      && key in v.locks && v.locks[key] == b.locks[key] && b.aborted <= v.aborted
      && Counter(v, key) == Counter(b, key) + (if Elsewhere(e, key) then 0 else 1)
      && (!Elsewhere(e, key) && Counter(v, key) >= 3 ==> b.locks[key].controller in v.aborted)
  {
  }

  lemma {:induction false} AfterFirst(b: Book, es: seq<Event>)
    requires es != []
    ensures After(b, es) == After(Apply(b, es[0]), es[1..])
  {
    AfterConcat(b, [es[0]], es[1..]);
    assert es == [es[0]] + es[1..] && [es[0]][..0] == [];
    assert After(b, [es[0]]) == Apply(After(b, []), es[0]);
  }

  /** Failed renewals in a row are counted one by one, and with the third the run holding the lock is aborted. */
  lemma {:induction false} MissesAbort(b: Book, es: seq<Event>, key: string)
    requires key in b.locks && OnlyMisses(b, es, key)
    ensures Counter(After(b, es), key) == Counter(b, key) + Missed(es, key)
    ensures b.aborted <= After(b, es).aborted
    ensures Missed(es, key) > 0 && Counter(b, key) + Missed(es, key) >= 3 ==>
              b.locks[key].controller in After(b, es).aborted
    decreases |es|
  {
    if es != [] {
      hide After, Apply, Misses, Elsewhere;
      AfterFirst(b, es);
      MissStep(b, es[0], key);
      MissesAbort(Apply(b, es[0]), es[1..], key);
    }
  }

  /** A renewal that succeeds sets the count back, whatever it was, and aborts nothing. */
  lemma RenewalForgives(b: Book, key: string, counted: nat)
    ensures var v := Apply(b, Answered(key, counted, true));
      && Counter(v, key) == 0 && v.aborted == b.aborted && v.locks == b.locks
      && forall k | k != key :: Counter(v, k) == Counter(b, k)
  {
  }

  function AnsweredKeys(es: seq<Event>): set<string> {
    set e <- es | e.Answered? :: e.key
  }

  lemma ReleaseAccounts(b: Book, start: set<Claim>, tenant: string, runId: string, stage: string)
    requires Accounted(b, start, tenant, runId) && ':' !in stage
    ensures Accounted(Release(b, tenant, runId, stage), start, tenant, runId)
  {
    hide Accounted, StartRelease, Forget, Discharged;
    StartReleaseAccounts(b, start, tenant, runId, stage);
    ForgetAccounts(StartRelease(b, tenant, runId, stage), start, tenant, runId, stage);
  }

  /** The later record continues the earlier one, and accounts for what became of the book. */
  ghost predicate Follows(b: Book, es: seq<Event>, v: Book, fs: seq<Event>) {
    es <= fs && v == After(b, fs[|es|..])
  }

  lemma FollowsItself(b: Book, es: seq<Event>)
    ensures Follows(b, es, b, es)
  {
  }

  lemma FollowsOne(b: Book, es: seq<Event>, v: Book, fs: seq<Event>, e: Event)
    requires Follows(b, es, v, fs)
    ensures Follows(b, es, Apply(v, e), fs + [e])
  {
    assert (fs + [e])[|es|..] == fs[|es|..] + [e];
    AfterSnoc(b, fs[|es|..], e);
  }

  lemma {:induction false} AfterConcat(b: Book, es: seq<Event>, fs: seq<Event>)
    ensures After(b, es + fs) == After(After(b, es), fs)
    decreases |fs|
  {
    if fs == [] {
      assert es + fs == es;
    } else {
      var n := |fs| - 1;
      AfterConcat(b, es, fs[..n]);
      assert es + fs == (es + fs[..n]) + [fs[n]];
      AfterSnoc(b, es + fs[..n], fs[n]);
    }
  }

  lemma FollowsOn(b: Book, es: seq<Event>, v: Book, fs: seq<Event>, w: Book, gs: seq<Event>)
    requires Follows(b, es, v, fs) && Follows(v, fs, w, gs)
    ensures Follows(b, es, w, gs)
  {
    assert gs[|es|..] == fs[|es|..] + gs[|fs|..];
    AfterConcat(b, fs[|es|..], gs[|fs|..]);
  }

  // What came after the last sweep.
  function SinceSweep(es: seq<Event>): seq<Event> {
    if es == [] || es[|es| - 1].Swept? then [] else SinceSweep(es[..|es| - 1]) + [es[|es| - 1]]
  }

  /** Since the last sweep there was no acquisition, and the counters are those of the keys answered. */
  ghost predicate OnlyLateCounters(b: Book, es: seq<Event>) {
    b.failures.Keys == AnsweredKeys(SinceSweep(es))
  }

  lemma LateStep(b: Book, es: seq<Event>, e: Event)
    requires e.Swept? || (OnlyLateCounters(b, es) && (e.Answered? || e.EntryUnlocked? || e.Emptied?))
    ensures OnlyLateCounters(Apply(b, e), es + [e])
  {
    assert (es + [e])[..|es|] == es;
    var late := SinceSweep(es);
    if !e.Swept? {
      assert AnsweredKeys(late + [e]) == AnsweredKeys(late) + (if e.Answered? then {e.key} else {}) by {
        assert forall x :: x in late + [e] <==> x in late || x == e;
      }
    }
  }
}
