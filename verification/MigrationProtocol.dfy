/**
  Migration under crashes: any number of processes boot the same image against one database
  file, guarded by a lockfile created exclusively; a process may die between any two steps,
  in particular between running an `up` and recording its name; an operator may remove a
  lockfile whose creator is gone.
 */
module MigrationProtocol {
  import opened Wrappers
  import opened Migrations

  // In the guarded section: before reading the applied names, or at migration `i` of the loop,
  // with `ran` once its `up` has run and its name is still to be recorded.
  datatype Progress = Entered | Running(done: set<string>, i: nat, ran: bool)

  datatype State<!S> = State(lockfile: Option<nat>, inside: map<nat, Progress>, db: Db<S>)

  datatype Event =
    | Enter(p: nat)                    // open(.., 'wx') succeeds
    | ReadApplied(p: nat, fails: bool) // applied names read, or taken for none; gate passed
    | Refuse(p: nat, unlinked: bool)   // gate failed: out through finally
    | Up(p: nat)
    | Record(p: nat)
    | Skip(p: nat)
    | Throw(p: nat, unlinked: bool)    // a statement throws: out through finally
    | Finish(p: nat, unlinked: bool)   // loop done: out through finally
    | Crash(p: nat)
    | OperatorRemoves

  predicate At<S>(s: State<S>, ms: seq<Migration<S>>, p: nat) {
    p in s.inside && s.inside[p].Running? && s.inside[p].i < |ms|
  }

  predicate Enabled<S>(ms: seq<Migration<S>>, s: State<S>, e: Event) {
    match e
    case Enter(p) => s.lockfile.None? && p !in s.inside
    case ReadApplied(p, fails) => p in s.inside && s.inside[p].Entered? && (fails || s.db.applied <= Names(ms))
    case Refuse(p, _) => p in s.inside && s.inside[p].Entered? && !(s.db.applied <= Names(ms))
    case Up(p) => At(s, ms, p) && !s.inside[p].ran && ms[s.inside[p].i].name !in s.inside[p].done
    case Record(p) => At(s, ms, p) && s.inside[p].ran
    case Skip(p) => At(s, ms, p) && !s.inside[p].ran && ms[s.inside[p].i].name in s.inside[p].done
    case Throw(p, _) => p in s.inside
    case Finish(p, _) => p in s.inside && s.inside[p].Running? && s.inside[p].i == |ms|
    case Crash(p) => p in s.inside
    case OperatorRemoves => s.lockfile.Some? && s.lockfile.value !in s.inside
  }

  function Leave<S>(s: State<S>, p: nat, unlinked: bool): State<S> {
    s.(inside := s.inside - {p}, lockfile := if unlinked then None else s.lockfile)
  }

  function Step<S>(ms: seq<Migration<S>>, s: State<S>, e: Event): State<S>
    requires Enabled(ms, s, e)
  {
    match e
    case Enter(p) => s.(lockfile := Some(p), inside := s.inside[p := Entered])
    case ReadApplied(p, _) => s.(inside := s.inside[p := Running(set n | n in s.db.applied, 0, false)])
    case Refuse(p, unlinked) => Leave(s, p, unlinked)
    case Up(p) =>
      s.(db := s.db.(schema := ms[s.inside[p].i].up(s.db.schema)), inside := s.inside[p := s.inside[p].(ran := true)])
    case Record(p) =>
      s.(db := s.db.(applied := s.db.applied + [ms[s.inside[p].i].name]),
         inside := s.inside[p := s.inside[p].(ran := false, i := s.inside[p].i + 1)])
    case Skip(p) => s.(inside := s.inside[p := s.inside[p].(i := s.inside[p].i + 1)])
    case Throw(p, unlinked) => Leave(s, p, unlinked)
    case Finish(p, unlinked) => Leave(s, p, unlinked)
    case Crash(p) => Leave(s, p, false)
    case OperatorRemoves => s.(lockfile := None)
  }

  predicate Legal<S>(ms: seq<Migration<S>>, s: State<S>, es: seq<Event>)
    decreases |es|
  {
    es != [] ==> Enabled(ms, s, es[0]) && Legal(ms, Step(ms, s, es[0]), es[1..])
  }

  function After<S>(ms: seq<Migration<S>>, s: State<S>, es: seq<Event>): State<S>
    requires Legal(ms, s, es)
    decreases |es|
  {
    if es == [] then s else After(ms, Step(ms, s, es[0]), es[1..])
  }

  function Fresh<S>(s0: S): State<S> {
    State(None, map[], Db(s0, []))
  }

  // ---- One process at a time -----------------------------------------------------------------

  ghost predicate Guarded<S>(s: State<S>) {
    forall p | p in s.inside :: s.lockfile == Some(p)
  }

  /** At most one process is ever inside the migrating section. */
  lemma {:induction false} AtMostOneInside<S>(ms: seq<Migration<S>>, s: State<S>, es: seq<Event>)
    requires Guarded(s) && Legal(ms, s, es)
    ensures Guarded(After(ms, s, es))
    ensures forall p, q :: p in After(ms, s, es).inside && q in After(ms, s, es).inside ==> p == q
    decreases |es|
  {
    if es != [] {
      AtMostOneInside(ms, Step(ms, s, es[0]), es[1..]);
    }
  }

  // The steps by which a process leaves the guarded section.
  predicate Leaves(e: Event, p: nat) {
    match e
    case Refuse(q, _) => q == p
    case Throw(q, _) => q == p
    case Finish(q, _) => q == p
    case Crash(q) => q == p
    case _ => false
  }

  /**
    Whoever is inside leaves by one of these, and the next process gets in at once exactly when the
    lockfile was unlinked on the way out; otherwise nobody does until the operator removes it.
   */
  lemma NextEntersIff<S>(ms: seq<Migration<S>>, s: State<S>, e: Event, p: nat, q: nat)
    requires Guarded(s) && p in s.inside && Leaves(e, p) && Enabled(ms, s, e)
    ensures var v := Step(ms, s, e);
      && v.inside == map[] && v.db == s.db
      && (Enabled(ms, v, Enter(q)) <==> !e.Crash? && e.unlinked)
      && (Enabled(ms, v, OperatorRemoves) <==> e.Crash? || !e.unlinked)
      && (Enabled(ms, v, OperatorRemoves) ==> Enabled(ms, Step(ms, v, OperatorRemoves), Enter(q)))
  {
  }

  /** A process that has entered is let on or refused, one or the other, where its read does not fail. */
  lemma GateDecides<S>(ms: seq<Migration<S>>, s: State<S>, p: nat, unlinked: bool)
    requires p in s.inside && s.inside[p].Entered?
    ensures Enabled(ms, s, ReadApplied(p, false)) <==> !Enabled(ms, s, Refuse(p, unlinked))
  {
  }

  // ---- Convergence ---------------------------------------------------------------------------

  /** Running an `up` again right after itself, where it stands in the order, changes nothing. */
  ghost predicate IdempotentInPlace<S>(ms: seq<Migration<S>>, s0: S) {
    forall k | 0 <= k < |ms| :: ms[k].up(Fold(ms, s0, k + 1)) == Fold(ms, s0, k + 1)
  }

  // The names recorded so far are the first k; the schema has those ups applied, or one more.
  ghost predicate DbInv<S>(ms: seq<Migration<S>>, s0: S, db: Db<S>) {
    var k := |db.applied|;
    && k <= |ms| && db.applied == Names(ms)[..k]
    && (db.schema == Fold(ms, s0, k) || (k < |ms| && db.schema == Fold(ms, s0, k + 1)))
  }

  // From migration `i` on, what the process still has to do is what is not recorded.
  ghost predicate ProgressInv<S>(ms: seq<Migration<S>>, s0: S, db: Db<S>, pr: Progress) {
    pr.Running? ==>
      var k := |db.applied|;
      && pr.i <= k <= |ms|
      && (forall j | pr.i <= j < |ms| :: ms[j].name in pr.done <==> j < k)
      && (pr.ran ==> pr.i == k < |ms| && db.schema == Fold(ms, s0, k + 1))
  }

  ghost predicate Inv<S>(ms: seq<Migration<S>>, s0: S, s: State<S>) {
    && Guarded(s) && DbInv(ms, s0, s.db)
    && forall p | p in s.inside :: ProgressInv(ms, s0, s.db, s.inside[p])
  }

  lemma NamesAt<S>(ms: seq<Migration<S>>, applied: seq<string>)
    requires Distinct(Names(ms)) && applied <= Names(ms)
    ensures forall j | 0 <= j < |ms| :: ms[j].name in applied <==> j < |applied|
  {
    forall j | 0 <= j < |ms|
      ensures ms[j].name in applied <==> j < |applied|
    {
      assert Names(ms)[j] == ms[j].name;
      assert forall i | 0 <= i < |applied| :: applied[i] == Names(ms)[i];
    }
  }

  lemma UpKeepsInv<S>(ms: seq<Migration<S>>, s0: S, s: State<S>, p: nat)
    requires IdempotentInPlace(ms, s0) && Inv(ms, s0, s) && Enabled(ms, s, Up(p))
    ensures Inv(ms, s0, Step(ms, s, Up(p)))
  {
  }

  lemma RecordKeepsInv<S>(ms: seq<Migration<S>>, s0: S, s: State<S>, p: nat)
    requires Inv(ms, s0, s) && Enabled(ms, s, Record(p))
    ensures Inv(ms, s0, Step(ms, s, Record(p)))
  {
  }

  lemma OthersKeepInv<S>(ms: seq<Migration<S>>, s0: S, s: State<S>, e: Event)
    requires Distinct(Names(ms)) && Inv(ms, s0, s) && Enabled(ms, s, e) && !e.Up? && !e.Record?
    ensures Inv(ms, s0, Step(ms, s, e))
  {
    var s' := Step(ms, s, e);
    if e.ReadApplied? {
      NamesAt(ms, s.db.applied);
    }
    forall q | q in s'.inside
      ensures ProgressInv(ms, s0, s'.db, s'.inside[q])
    {
      if q in s.inside {
        assert ProgressInv(ms, s0, s.db, s.inside[q]);
      }
    }
  }

  lemma FinishIsComplete<S>(ms: seq<Migration<S>>, s0: S, s: State<S>, p: nat, unlinked: bool)
    requires Inv(ms, s0, s) && Enabled(ms, s, Finish(p, unlinked))
    ensures Step(ms, s, Finish(p, unlinked)).db == Db(Fold(ms, s0, |ms|), Names(ms))
  {
  }

  lemma StepKeepsInv<S>(ms: seq<Migration<S>>, s0: S, s: State<S>, e: Event)
    requires Distinct(Names(ms)) && IdempotentInPlace(ms, s0)
    requires Inv(ms, s0, s) && Enabled(ms, s, e)
    ensures Inv(ms, s0, Step(ms, s, e))
  {
    match e
    case Up(p) => UpKeepsInv(ms, s0, s, p);
    case Record(p) => RecordKeepsInv(ms, s0, s, p);
    case _ => OthersKeepInv(ms, s0, s, e);
  }

  lemma {:induction false} RunKeepsInv<S>(ms: seq<Migration<S>>, s0: S, s: State<S>, es: seq<Event>)
    requires Distinct(Names(ms)) && IdempotentInPlace(ms, s0)
    requires Inv(ms, s0, s) && Legal(ms, s, es)
    ensures Inv(ms, s0, After(ms, s, es))
    decreases |es|
  {
    if es != [] {
      StepKeepsInv(ms, s0, s, es[0]);
      RunKeepsInv(ms, s0, Step(ms, s, es[0]), es[1..]);
    }
  }

  /**
    Whatever crashed before, a boot that completes leaves every name recorded, in order, and
    the schema the fold of all `up`s.
   */
  lemma CrashesConverge<S>(ms: seq<Migration<S>>, s0: S, es: seq<Event>, p: nat, unlinked: bool)
    requires Distinct(Names(ms)) && IdempotentInPlace(ms, s0)
    requires Legal(ms, Fresh(s0), es) && Enabled(ms, After(ms, Fresh(s0), es), Finish(p, unlinked))
    ensures Step(ms, After(ms, Fresh(s0), es), Finish(p, unlinked)).db == Db(Fold(ms, s0, |ms|), Names(ms))
  {
    assert Inv(ms, s0, Fresh(s0));
    RunKeepsInv(ms, s0, Fresh(s0), es);
    FinishIsComplete(ms, s0, After(ms, Fresh(s0), es), p, unlinked);
  }

  // ---- Idempotence is needed -----------------------------------------------------------------

  /** Every completed boot of this image converges. */
  ghost predicate Converges<S>(ms: seq<Migration<S>>, s0: S) {
    forall es: seq<Event>, p: nat, unlinked: bool ::
      Legal(ms, Fresh(s0), es) && Enabled(ms, After(ms, Fresh(s0), es), Finish(p, unlinked)) ==>
        Step(ms, After(ms, Fresh(s0), es), Finish(p, unlinked)).db == Db(Fold(ms, s0, |ms|), Names(ms))
  }

  ghost predicate Leads<S>(ms: seq<Migration<S>>, s: State<S>, es: seq<Event>, s': State<S>) {
    Legal(ms, s, es) && After(ms, s, es) == s'
  }

  lemma {:induction false} LeadsTo<S>(ms: seq<Migration<S>>, s: State<S>, es: seq<Event>, mid: State<S>, e: Event)
    requires Leads(ms, s, es, mid) && Enabled(ms, mid, e)
    ensures Leads(ms, s, es + [e], Step(ms, mid, e))
    decreases |es|
  {
    if es == [] {
      assert [e][1..] == [];
    } else {
      assert (es + [e])[1..] == es[1..] + [e];
      LeadsTo(ms, Step(ms, s, es[0]), es[1..], mid, e);
    }
  }

  // Process 0 in its loop.
  function Inside<S>(db: Db<S>, done: set<string>, i: nat, ran: bool): State<S> {
    State(Some(0), map[0 := Running(done, i, ran)], db)
  }

  // A first boot that has recorded k migrations.
  lemma {:induction false} RunUpTo<S>(ms: seq<Migration<S>>, s0: S, k: nat) returns (es: seq<Event>)
    requires Distinct(Names(ms)) && k <= |ms|
    ensures Leads(ms, Fresh(s0), es, Inside(Db(Fold(ms, s0, k), Names(ms)[..k]), {}, k, false))
  {
    if k == 0 {
      LeadsTo(ms, Fresh(s0), [], Fresh(s0), Enter(0));
      var s := Step(ms, Fresh(s0), Enter(0));
      LeadsTo(ms, Fresh(s0), [] + [Enter(0)], s, ReadApplied(0, false));
      assert (set n | n in s.db.applied) == {};
      assert Step(ms, s, ReadApplied(0, false)) == Inside(Db(s0, []), {}, 0, false);
      assert Names(ms)[..0] == [];
      return [] + [Enter(0)] + [ReadApplied(0, false)];
    }
    es := RunUpTo(ms, s0, k - 1);
    var a := Inside(Db(Fold(ms, s0, k - 1), Names(ms)[..k - 1]), {}, k - 1, false);
    LeadsTo(ms, Fresh(s0), es, a, Up(0));
    var b := Inside(Db(Fold(ms, s0, k), Names(ms)[..k - 1]), {}, k - 1, true);
    assert Step(ms, a, Up(0)) == b;
    LeadsTo(ms, Fresh(s0), es + [Up(0)], b, Record(0));
    assert Names(ms)[..k - 1] + [ms[k - 1].name] == Names(ms)[..k];
    assert Step(ms, b, Record(0)) == Inside(Db(Fold(ms, s0, k), Names(ms)[..k]), {}, k, false);
    es := es + [Up(0)] + [Record(0)];
  }

  // A process skipping the first i recorded migrations.
  lemma {:induction false} SkipUpTo<S>(ms: seq<Migration<S>>, s: State<S>, es: seq<Event>, db: Db<S>,
                                       done: set<string>, i: nat)
    returns (es': seq<Event>)
    requires Leads(ms, s, es, Inside(db, done, 0, false))
    requires i < |ms| && forall j | 0 <= j < i :: ms[j].name in done
    ensures Leads(ms, s, es', Inside(db, done, i, false))
  {
    if i == 0 {
      return es;
    }
    es' := SkipUpTo(ms, s, es, db, done, i - 1);
    LeadsTo(ms, s, es', Inside(db, done, i - 1, false), Skip(0));
    es' := es' + [Skip(0)];
  }

  // Crash after the last `up` before its name is recorded, clear the lockfile, boot again: that `up` runs twice.
  lemma LastUpTwice<S>(ms: seq<Migration<S>>, s0: S) returns (es: seq<Event>)
    requires Distinct(Names(ms)) && |ms| > 0
    ensures
      var n := |ms| - 1;
      Legal(ms, Fresh(s0), es) && Enabled(ms, After(ms, Fresh(s0), es), Finish(0, true))
      && Step(ms, After(ms, Fresh(s0), es), Finish(0, true)).db == Db(ms[n].up(Fold(ms, s0, |ms|)), Names(ms))
  {
    var n := |ms| - 1;
    var f := Fresh(s0);
    var names := Names(ms)[..n];
    es := RunUpTo(ms, s0, n);
    var a := Inside(Db(Fold(ms, s0, n), names), {}, n, false);
    LeadsTo(ms, f, es, a, Up(0));
    var b := Inside(Db(Fold(ms, s0, n + 1), names), {}, n, true);
    assert Step(ms, a, Up(0)) == b;
    es := es + [Up(0)];
    LeadsTo(ms, f, es, b, Crash(0));
    var c := State(Some(0), map[], b.db);
    assert Step(ms, b, Crash(0)) == c;
    es := es + [Crash(0)];
    LeadsTo(ms, f, es, c, OperatorRemoves);
    es := es + [OperatorRemoves];
    es := Again(ms, s0, es, State(None, map[], b.db));
  }

  lemma Again<S>(ms: seq<Migration<S>>, s0: S, es: seq<Event>, c: State<S>) returns (es': seq<Event>)
    requires Distinct(Names(ms)) && |ms| > 0
    requires Leads(ms, Fresh(s0), es, c)
    requires c == State(None, map[], Db(Fold(ms, s0, |ms|), Names(ms)[..|ms| - 1]))
    ensures
      Legal(ms, Fresh(s0), es') && Enabled(ms, After(ms, Fresh(s0), es'), Finish(0, true))
      && Step(ms, After(ms, Fresh(s0), es'), Finish(0, true)).db == Db(ms[|ms| - 1].up(Fold(ms, s0, |ms|)), Names(ms))
  {
    var n, f := |ms| - 1, Fresh(s0);
    var done := set x | x in c.db.applied;
    LeadsTo(ms, f, es, c, Enter(0));
    var d := Step(ms, c, Enter(0));
    LeadsTo(ms, f, es + [Enter(0)], d, ReadApplied(0, false));
    assert Step(ms, d, ReadApplied(0, false)) == Inside(c.db, done, 0, false);
    NamesAt(ms, c.db.applied);
    hide Leads;
    es' := SkipUpTo(ms, f, es + [Enter(0)] + [ReadApplied(0, false)], c.db, done, n);
    es' := LastOnceMore(ms, f, es', c.db, done);
  }

  // The last migration run and recorded.
  lemma LastOnceMore<S>(ms: seq<Migration<S>>, f: State<S>, es: seq<Event>, db: Db<S>, done: set<string>)
    returns (es': seq<Event>)
    requires |ms| > 0 && db.applied == Names(ms)[..|ms| - 1] && ms[|ms| - 1].name !in done
    requires Leads(ms, f, es, Inside(db, done, |ms| - 1, false))
    ensures
      Legal(ms, f, es') && Enabled(ms, After(ms, f, es'), Finish(0, true))
      && Step(ms, After(ms, f, es'), Finish(0, true)).db == Db(ms[|ms| - 1].up(db.schema), Names(ms))
  {
    var n := |ms| - 1;
    LeadsTo(ms, f, es, Inside(db, done, n, false), Up(0));
    var g := Inside(Db(ms[n].up(db.schema), db.applied), done, n, true);
    assert Step(ms, Inside(db, done, n, false), Up(0)) == g;
    LeadsTo(ms, f, es + [Up(0)], g, Record(0));
    assert db.applied + [ms[n].name] == Names(ms);
    es' := es + [Up(0)] + [Record(0)];
  }

  /**
    Every release's image, each a prefix of the manifest, converges after any crashes exactly when
    every `up` is idempotent in its place.
   */
  lemma ConvergesIffIdempotent<S>(ms: seq<Migration<S>>, s0: S)
    requires Distinct(Names(ms))
    ensures (forall m | 0 <= m <= |ms| :: Converges(ms[..m], s0)) <==> IdempotentInPlace(ms, s0)
  {
    if IdempotentInPlace(ms, s0) {
      forall m | 0 <= m <= |ms|
        ensures Converges(ms[..m], s0)
      {
        PrefixFolds(ms, s0, m);
        forall es: seq<Event>, p: nat, unlinked: bool
          | Legal(ms[..m], Fresh(s0), es) && Enabled(ms[..m], After(ms[..m], Fresh(s0), es), Finish(p, unlinked))
          ensures Step(ms[..m], After(ms[..m], Fresh(s0), es), Finish(p, unlinked)).db
              == Db(Fold(ms[..m], s0, m), Names(ms[..m]))
        {
          CrashesConverge(ms[..m], s0, es, p, unlinked);
        }
      }
    }
    if forall m | 0 <= m <= |ms| :: Converges(ms[..m], s0) {
      forall k | 0 <= k < |ms|
        ensures ms[k].up(Fold(ms, s0, k + 1)) == Fold(ms, s0, k + 1)
      {
        PrefixFolds(ms, s0, k + 1);
        assert Converges(ms[..k + 1], s0);
        var es := LastUpTwice(ms[..k + 1], s0);
      }
    }
  }

  lemma PrefixFolds<S>(ms: seq<Migration<S>>, s0: S, m: nat)
    requires m <= |ms| && Distinct(Names(ms))
    ensures Distinct(Names(ms[..m])) && forall k | 0 <= k <= m :: Fold(ms[..m], s0, k) == Fold(ms, s0, k)
  {
    assert Names(ms[..m]) == Names(ms)[..m];
    for k := 0 to m
      invariant forall i | 0 <= i <= k :: Fold(ms[..m], s0, i) == Fold(ms, s0, i)
    {
    }
  }
}
