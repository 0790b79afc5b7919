/**
  The checkpoint saves of a run: those it makes as it goes, and those that stages still make when
  they resolve after their try was given up (the wrapper around a stage saves whatever it resolves
  with, and nobody waits for it any more).
 */
module RunSaves {
  import opened Wrappers
  import opened PipelineTypes
  import opened CheckpointStore
  import opened PipelineFlow
  import opened PipelineRuns
  import opened StageLocks

  // What a save is called with.
  type SaveArg = (string, StageResult)

  // `stray` marks a save made by a try that was given up.
  datatype SaveCall = SaveCall(stage: string, result: StageResult, stray: bool)

  /** The run's own saves, in order. */
  function Own(saves: seq<SaveCall>): seq<SaveArg> {
    if saves == [] then []
    else
      var last := saves[|saves| - 1];
      Own(saves[..|saves| - 1]) + if last.stray then [] else [(last.stage, last.result)]
  }

  function Strays(saves: seq<SaveCall>): multiset<SaveArg> {
    if saves == [] then multiset{}
    else
      var last := saves[|saves| - 1];
      Strays(saves[..|saves| - 1]) + if last.stray then multiset{(last.stage, last.result)} else multiset{}
  }

  /** An orchestrator's record at one moment: locks, what happened to them, saves made and saves still owed. */
  datatype Mark = Mark(book: Book, log: seq<Event>, saves: seq<SaveCall>, pending: multiset<SaveArg>)

  /** From one moment to a later one: the log accounts for the locks, `own` saves made, `strays` made or still owed. */
  ghost predicate Grows(m: Mark, n: Mark, own: seq<SaveArg>, strays: multiset<SaveArg>) {
    && Follows(m.book, m.log, n.book, n.log)
    && m.saves <= n.saves && Own(n.saves) == Own(m.saves) + own
    && Strays(n.saves) + n.pending == Strays(m.saves) + m.pending + strays
  }

  /** .. with no more than those: some of the own saves from the first on, some of the strays. */
  ghost predicate Within(m: Mark, n: Mark, own: seq<SaveArg>, strays: multiset<SaveArg>) {
    exists own', strays' :: own' <= own && strays' <= strays && Grows(m, n, own', strays')
  }

  lemma GrowsNot(m: Mark)
    ensures Grows(m, m, [], multiset{})
  {
    FollowsItself(m.book, m.log);
  }

  lemma GrowsOn(m: Mark, n: Mark, o: Mark, own1: seq<SaveArg>, strays1: multiset<SaveArg>,
                own2: seq<SaveArg>, strays2: multiset<SaveArg>)
    requires Grows(m, n, own1, strays1) && Grows(n, o, own2, strays2)
    ensures Grows(m, o, own1 + own2, strays1 + strays2)
  {
    FollowsOn(m.book, m.log, n.book, n.log, o.book, o.log);
    assert Own(m.saves) + own1 + own2 == Own(m.saves) + (own1 + own2);
  }

  /** A stretch in which the run itself saved nothing. */
  lemma GrowsIdly(m: Mark, n: Mark, o: Mark, own: seq<SaveArg>, strays: multiset<SaveArg>)
    requires Grows(m, n, own, strays) && Grows(n, o, [], multiset{})
    ensures Grows(m, o, own, strays)
  {
    GrowsOn(m, n, o, own, strays, [], multiset{});
    assert own + [] == own && strays + multiset{} == strays;
  }

  lemma GrowsByEvent(m: Mark, n: Mark, e: Event, own: seq<SaveArg>, strays: multiset<SaveArg>)
    requires Grows(m, n, own, strays)
    ensures Grows(m, n.(book := Apply(n.book, e), log := n.log + [e]), own, strays)
  {
    FollowsOne(m.book, m.log, n.book, n.log, e);
  }

  lemma GrowsBySave(m: Mark, n: Mark, call: (string, StageResult),
                    own: seq<SaveArg>, strays: multiset<SaveArg>)
    requires Grows(m, n, own, strays)
    ensures Grows(m, n.(saves := n.saves + [SaveCall(call.0, call.1, false)]), own + [call], strays)
  {
    assert (n.saves + [SaveCall(call.0, call.1, false)])[..|n.saves|] == n.saves;
    assert Own(m.saves) + own + [call] == Own(m.saves) + (own + [call]);
  }

  lemma GrowsByDebt(m: Mark, n: Mark, call: (string, StageResult),
                    own: seq<SaveArg>, strays: multiset<SaveArg>)
    requires Grows(m, n, own, strays)
    ensures Grows(m, n.(pending := n.pending + multiset{call}), own, strays + multiset{call})
  {
    assert Strays(n.saves) + (n.pending + multiset{call}) == Strays(n.saves) + n.pending + multiset{call};
  }

  lemma GrowsByStray(m: Mark, n: Mark, call: (string, StageResult),
                     own: seq<SaveArg>, strays: multiset<SaveArg>)
    requires Grows(m, n, own, strays) && call in n.pending
    ensures Grows(m, n.(saves := n.saves + [SaveCall(call.0, call.1, true)], pending := n.pending - multiset{call}),
                  own, strays)
  {
    var saves := n.saves + [SaveCall(call.0, call.1, true)];
    assert saves[..|n.saves|] == n.saves;
    assert Strays(saves) + (n.pending - multiset{call}) == Strays(n.saves) + n.pending;
  }

  lemma GrowsWithin(m: Mark, n: Mark, own1: seq<SaveArg>, strays1: multiset<SaveArg>,
                    own: seq<SaveArg>, strays: multiset<SaveArg>)
    requires Grows(m, n, own1, strays1) && own1 <= own && strays1 <= strays
    ensures Within(m, n, own, strays)
  {
  }

  // ---- Which saves were made between two moments ---------------------------------------------

  lemma {:induction false} OwnConcat(a: seq<SaveCall>, b: seq<SaveCall>)
    ensures Own(a + b) == Own(a) + Own(b)
    decreases |b|
  {
    if b == [] {
      assert a + b == a;
    } else {
      OwnConcat(a, b[..|b| - 1]);
      assert (a + b)[..|a + b| - 1] == a + b[..|b| - 1];
    }
  }

  lemma {:induction false} StraysAt(a: seq<SaveCall>, b: seq<SaveCall>, x: SaveArg)
    ensures Strays(a + b)[x] == Strays(a)[x] + Strays(b)[x]
    decreases |b|
  {
    if b == [] {
      assert a + b == a;
    } else {
      StraysAt(a, b[..|b| - 1], x);
      assert (a + b)[..|a + b| - 1] == a + b[..|b| - 1];
    }
  }

  lemma StraysConcat(a: seq<SaveCall>, b: seq<SaveCall>)
    ensures Strays(a + b) == Strays(a) + Strays(b)
  {
    hide Strays;
    forall x: SaveArg ensures Strays(a + b)[x] == (Strays(a) + Strays(b))[x] {
      StraysAt(a, b, x);
    }
  }

  lemma {:induction false} CallsAreOwnOrStray(calls: seq<SaveCall>)
    ensures forall c <- calls ::
        if c.stray then (c.stage, c.result) in Strays(calls) else (c.stage, c.result) in Own(calls)
    decreases |calls|
  {
    if calls != [] {
      CallsAreOwnOrStray(calls[..|calls| - 1]);
      assert calls == calls[..|calls| - 1] + [calls[|calls| - 1]];
    }
  }

  /** What was saved in between, and what became of the saves owed: exactly. */
  lemma SavesBetween(m: Mark, n: Mark, own: seq<SaveArg>, strays: multiset<SaveArg>)
    requires Grows(m, n, own, strays)
    ensures m.saves <= n.saves && Own(n.saves[|m.saves|..]) == own
    ensures Strays(n.saves[|m.saves|..]) + n.pending == m.pending + strays
  {
    hide Follows;
    var made := n.saves[|m.saves|..];
    assert n.saves == m.saves + made;
    OwnConcat(m.saves, made);
    StraysConcat(m.saves, made);
    assert Own(n.saves)[|Own(m.saves)|..] == Own(made);
    SameSum(Strays(m.saves), Strays(made), n.pending, m.pending, strays);
  }

  /** Every save made since is one of the run's own, one of its strays, or one still owed at the start. */
  lemma SavesSince(m: Mark, n: Mark, own: seq<SaveArg>, strays: multiset<SaveArg>)
    requires Within(m, n, own, strays)
    ensures m.saves <= n.saves
    ensures forall c <- n.saves[|m.saves|..] ::
        (c.stage, c.result) in own || (c.stage, c.result) in strays || (c.stage, c.result) in m.pending
    ensures forall call <- n.pending :: call in strays || call in m.pending
  {
    hide Follows;
    var own', strays' :| own' <= own && strays' <= strays && Grows(m, n, own', strays');
    var made := n.saves[|m.saves|..];
    SavesBetween(m, n, own', strays');
    CallsAreOwnOrStray(made);
    MadeOrOwed(Strays(made), n.pending, m.pending, strays', strays);
  }

  lemma SameSum(a: multiset<SaveArg>, b: multiset<SaveArg>, c: multiset<SaveArg>,
                d: multiset<SaveArg>, e: multiset<SaveArg>)
    requires a + b + c == a + d + e
    ensures b + c == d + e
  {
    forall x ensures (b + c)[x] == (d + e)[x] {
      assert (a + b + c)[x] == (a + d + e)[x];
    }
  }

  lemma OwnSlices(a: seq<SaveCall>, b: seq<SaveCall>, c: seq<SaveCall>)
    requires a <= b <= c
    ensures Own(c[|a|..]) == Own(b[|a|..]) + Own(c[|b|..])
  {
    OwnConcat(b[|a|..], c[|b|..]);
    assert c[|a|..] == b[|a|..] + c[|b|..];
  }

  /** One stretch after another, the later one known in part only. */
  lemma GrowsThenWithin(m: Mark, n: Mark, o: Mark, own1: seq<SaveArg>, own: seq<SaveArg>, strays: multiset<SaveArg>,
                        all: bool)
    requires Grows(m, n, own1, multiset{}) && Within(n, o, own, strays) && (all ==> Grows(n, o, own, strays))
    ensures Within(m, o, own1 + own, strays) && (all ==> Grows(m, o, own1 + own, strays))
    ensures m.saves <= o.saves && own1 <= Own(o.saves[|m.saves|..])
  {
    SavesBetween(m, n, own1, multiset{});
    hide Grows, Own;
    var own', strays' :| own' <= own && strays' <= strays && Grows(n, o, own', strays');
    GrowsOn(m, n, o, own1, multiset{}, own', strays');
    assert multiset{} + strays' == strays' && multiset{} + strays == strays;
    SavesBetween(m, o, own1 + own', strays');
    if all {
      GrowsOn(m, n, o, own1, multiset{}, own, strays);
    }
  }

  lemma SavesPile(m: Mark, n: Mark, own: seq<SaveArg>, strays: multiset<SaveArg>)
    requires Grows(m, n, own, strays)
    ensures m.saves <= n.saves
  {
  }

  lemma MadeOrOwed(made: multiset<SaveArg>, owed: multiset<SaveArg>, before: multiset<SaveArg>,
                   strays': multiset<SaveArg>, strays: multiset<SaveArg>)
    requires made + owed == before + strays' && strays' <= strays
    ensures forall x :: x in made || x in owed ==> x in before || x in strays
  {
    forall x | x in made || x in owed ensures x in before || x in strays {
      assert x in made + owed;
      assert x in strays' ==> strays'[x] <= strays[x];
    }
  }

  // ---- What each part of a run saves ---------------------------------------------------------

  // With intra-stage checkpoints on, a try saves from the inside: in time ..
  ghost function OwnCall(env: Env, intra: bool, s: Stage, input: seq<Candidate>, k: nat): seq<SaveArg> {
    var o := env.attempt(s, input, k);
    if intra && o.Resolved? then [(s.Label(), o.result)] else []
  }

  // .. or after it was given up.
  ghost function StrayCall(env: Env, intra: bool, s: Stage, input: seq<Candidate>, k: nat): multiset<SaveArg> {
    if intra && !env.attempt(s, input, k).Resolved? && env.stray(s, input, k).Some?
    then multiset{(s.Label(), env.stray(s, input, k).value)}
    else multiset{}
  }

  ghost function StrayCalls(env: Env, intra: bool, s: Stage, input: seq<Candidate>, k: nat): multiset<SaveArg> {
    if k == 0 then multiset{} else StrayCalls(env, intra, s, input, k - 1) + StrayCall(env, intra, s, input, k)
  }

  ghost function HarvestSaves(env: Env, intra: bool, s: Stage, input: seq<Candidate>): seq<SaveArg> {
    OwnCall(env, intra, s, input, Decider(env, s, input, 1))
  }

  ghost function StageStrays(env: Env, intra: bool, s: Stage, input: seq<Candidate>): multiset<SaveArg> {
    StrayCalls(env, intra, s, input, Decider(env, s, input, 1))
  }

  // How try k bears on the stage: it decides it, or the next one is made.
  lemma TryDecides(env: Env, intra: bool, s: Stage, input: seq<Candidate>, k: nat)
    requires 1 <= k <= MAX_ATTEMPTS && Decider(env, s, input, 1) == Decider(env, s, input, k)
    ensures var o := env.attempt(s, input, k);
      if !o.Failed? || !o.isTransient || k >= MAX_ATTEMPTS || env.signalAt(s, k) then
        && LastOutcome(env, s, input) == o && Live(env, s, input) == SettledBy(s, |input|, o)
        && OwnCall(env, intra, s, input, k) == HarvestSaves(env, intra, s, input)
        && StrayCalls(env, intra, s, input, k) == StageStrays(env, intra, s, input)
      else k < MAX_ATTEMPTS && Decider(env, s, input, 1) == Decider(env, s, input, k + 1)
    ensures !env.attempt(s, input, k).Resolved? ==> OwnCall(env, intra, s, input, k) == []
  {
    hide SettledBy, StrayCalls;
    DeciderAt(env, s, input, k);
  }

  lemma FirstTry(env: Env, intra: bool, s: Stage, input: seq<Candidate>)
    ensures StrayCalls(env, intra, s, input, 0) == multiset{}
  {
  }

  /** Degraded results are saved like any other; a replayed stage saves nothing. */
  ghost function StageSaves(env: Env, intra: bool, r: Resume, s: Stage, input: seq<Candidate>): seq<SaveArg> {
    if Replays(r, s) then []
    else
      HarvestSaves(env, intra, s, input) +
      if env.recoveryThrows(s) && !LastOutcome(env, s, input).Resolved? then []
      else [(s.Label(), Live(env, s, input).result)]
  }

  ghost function StrayedBy(env: Env, intra: bool, r: Resume, s: Stage, input: seq<Candidate>): multiset<SaveArg> {
    if Replays(r, s) then multiset{} else StageStrays(env, intra, s, input)
  }

  // ---- No save is left out -------------------------------------------------------------------

  // A try given up whose stage function still resolved with `r`.
  predicate GivenUpWith(env: Env, s: Stage, input: seq<Candidate>, k: nat, r: StageResult) {
    !env.attempt(s, input, k).Resolved? && env.stray(s, input, k) == Some(r)
  }

  function GivenUp(env: Env, s: Stage, input: seq<Candidate>, k: nat, r: StageResult): set<nat> {
    set j: nat | 1 <= j <= k && GivenUpWith(env, s, input, j, r)
  }

  lemma GivenUpOneMore(env: Env, s: Stage, input: seq<Candidate>, k: nat, r: StageResult)
    requires k > 0
    ensures |GivenUp(env, s, input, k, r)| ==
      |GivenUp(env, s, input, k - 1, r)| + if GivenUpWith(env, s, input, k, r) then 1 else 0
  {
    hide GivenUpWith;
    var before, now := GivenUp(env, s, input, k - 1, r), GivenUp(env, s, input, k, r);
    forall j ensures j in now <==> j in before || (j == k && GivenUpWith(env, s, input, k, r)) {
    }
    assert k !in before && now == if GivenUpWith(env, s, input, k, r) then before + {k} else before;
  }

  lemma StrayCounted(env: Env, intra: bool, s: Stage, input: seq<Candidate>, k: nat, call: SaveArg)
    ensures StrayCall(env, intra, s, input, k)[call] ==
      if intra && call.0 == s.Label() && GivenUpWith(env, s, input, k, call.1) then 1 else 0
  {
  }

  /** One save is owed for each try given up, with just what its stage resolved with, and none without them. */
  lemma {:induction false} StraysCounted(env: Env, intra: bool, s: Stage, input: seq<Candidate>, k: nat, call: SaveArg)
    ensures StrayCalls(env, intra, s, input, k)[call] ==
      if intra && call.0 == s.Label() then |GivenUp(env, s, input, k, call.1)| else 0
    decreases k
  {
    hide GivenUpWith, StrayCall;
    if k > 0 {
      StraysCounted(env, intra, s, input, k - 1, call);
      StrayCounted(env, intra, s, input, k, call);
      hide GivenUp;
      GivenUpOneMore(env, s, input, k, call.1);
    } else {
      assert GivenUp(env, s, input, 0, call.1) == {};
    }
  }
}
