/**
  The two persistence loops of a synchronous run: candidates upserted and scores inserted in
  batches whose size follows the duration of the last write.  The loops advance by the batch
  size as resized by the batch just written.
 */
module Persistence {
  import opened Wrappers

  const INITIAL := 500
  const MIN := 100
  const MAX := 1000
  const SLOW_MS := 500
  const FAST_MS := 100

  /** The size after a batch that took `elapsed` ms: halved when slow, doubled when fast, within bounds. */
  function Resized(size: nat, elapsed: nat): nat {
    if elapsed > SLOW_MS && size > MIN then (if size / 2 < MIN then MIN else size / 2)
    else if elapsed < FAST_MS && size < MAX then (if size * 2 > MAX then MAX else size * 2)
    else size
  }

  lemma ResizedInBounds(size: nat, elapsed: nat)
    requires MIN <= size <= MAX
    ensures MIN <= Resized(size, elapsed) <= MAX
    ensures Resized(size, elapsed) > size <==> elapsed < FAST_MS && size < MAX
    ensures Resized(size, elapsed) < size <==> elapsed > SLOW_MS && size > MIN
  {
  }

  /** By a factor of two, or as far as the bound; so a fast batch is undone by a slow one within the bounds. */
  lemma ResizedByTwo(size: nat, fast: nat, slow: nat)
    requires MIN <= size <= MAX && fast < FAST_MS && slow > SLOW_MS
    ensures Resized(size, fast) <= 2 * size && (Resized(size, fast) == 2 * size || Resized(size, fast) == MAX)
    ensures size <= 2 * Resized(size, slow) + 1 && (Resized(size, slow) == size / 2 || Resized(size, slow) == MIN)
    ensures 2 * size <= MAX ==> Resized(Resized(size, fast), slow) == size
    ensures size % 2 == 0 && size >= 2 * MIN ==> Resized(Resized(size, slow), fast) == size
  {
  }

  function Least(a: nat, b: nat): nat {
    if a < b then a else b
  }

  /** One batch: where it starts, its nominal size and the size it was resized to. */
  datatype Batch = Batch(start: nat, size: nat, next: nat)

  // `elapsed(k)` is how long the k-th batch took.
  function Batches(n: nat, i: nat, size: nat, k: nat, elapsed: nat -> nat): (bs: seq<Batch>)
    requires MIN <= size <= MAX
    decreases n - i
  {
    if i >= n then []
    else
      var next := Resized(size, elapsed(k));
      [Batch(i, size, next)] + Batches(n, i + next, next, k + 1, elapsed)
  }

  lemma BatchesDone(n: nat, i: nat, size: nat, k: nat, elapsed: nat -> nat)
    requires MIN <= size <= MAX && i >= n
    ensures Batches(n, i, size, k, elapsed) == []
  {
  }

  lemma NextBatch(n: nat, i: nat, size: nat, k: nat, elapsed: nat -> nat)
    requires MIN <= size <= MAX && i < n
    ensures var next := Resized(size, elapsed(k));
      && MIN <= next <= MAX
      && Batches(n, i, size, k, elapsed) == [Batch(i, size, next)] + Batches(n, i + next, next, k + 1, elapsed)
  {
  }

  predicate Writes(b: Batch, n: nat, x: nat) {
    b.start <= x < Least(b.start + b.size, n)
  }

  // Past the end of a batch that grew, before the start of the next.
  predicate Skips(b: Batch, n: nat, x: nat) {
    b.start + b.size <= x < Least(b.start + b.next, n)
  }

  // In a batch that shrank, at or after the start of the next.
  predicate Repeats(b: Batch, n: nat, x: nat) {
    b.start + b.next <= x < Least(b.start + b.size, n)
  }

  /** How many batches write index `x`. */
  function Writers(bs: seq<Batch>, n: nat, x: nat): nat {
    if bs == [] then 0 else (if Writes(bs[0], n, x) then 1 else 0) + Writers(bs[1..], n, x)
  }

  // ---- The loops -----------------------------------------------------------------------------

  // `hasScore`: the score result is not null.
  datatype Scored = Scored(domain: string, hasScore: bool)

  /** The candidate rows: an id per domain, and the upserts in the order made. */
  class RunPersistence {
    var idByDomain: map<string, nat>
    var upserts: seq<string>
    var scoreRows: seq<(nat, string)>

    constructor ()
      ensures idByDomain == map[] && upserts == [] && scoreRows == []
    {
      idByDomain, upserts, scoreRows := map[], [], [];
    }

    // One transaction: `idOf` is the repository's answer, None when it reports no id.
    method UpsertBatch(batch: seq<string>, idOf: string -> Option<nat>)
      modifies this`idByDomain, this`upserts
      ensures upserts == old(upserts) + batch
      ensures forall d :: d in idByDomain <==> d in old(idByDomain) || (d in batch && idOf(d).Some?)
      ensures forall d :: d in batch && idOf(d).Some? ==> idByDomain[d] == idOf(d).value
      ensures forall d :: d in old(idByDomain) && d !in batch ==> idByDomain[d] == old(idByDomain)[d]
    {
      for j := 0 to |batch|
        invariant upserts == old(upserts) + batch[..j]
        invariant forall d :: d in idByDomain <==> d in old(idByDomain) || (d in batch[..j] && idOf(d).Some?)
        invariant forall d :: d in batch[..j] && idOf(d).Some? ==> idByDomain[d] == idOf(d).value
        invariant forall d :: d in old(idByDomain) && d !in batch[..j] ==> idByDomain[d] == old(idByDomain)[d]
      {
        var id := idOf(batch[j]);
        upserts := upserts + [batch[j]];
        if id.Some? {
          idByDomain := idByDomain[batch[j] := id.value];
        }
        assert batch[..j + 1] == batch[..j] + [batch[j]];
      }
      assert batch[..|batch|] == batch;
    }

    /**
      Phase 1 as written.  `timeLeft(k)` is whether the deadline is still ahead at batch k; None
      is the deadline error.  Otherwise the upserts are the slices of Batches, one after another.
     */
    method UpsertCandidates(all: seq<string>, idOf: string -> Option<nat>, elapsed: nat -> nat, timeLeft: nat -> bool)
      returns (persisted: Option<nat>)
      requires idByDomain == map[] && upserts == []
      modifies this`idByDomain, this`upserts
      ensures
        var bs := Batches(|all|, 0, INITIAL, 0, elapsed);
        && (persisted.Some? <==> forall k | 0 <= k < |bs| :: timeLeft(k))
        && (persisted.Some? ==> upserts == Slices(all, bs) && persisted.value == |upserts|)
      ensures forall d :: d in idByDomain ==> d in upserts && idOf(d) == Some(idByDomain[d])
      ensures forall d :: d in upserts && idOf(d).Some? ==> d in idByDomain
    {
      hide Batches, Slices, Resized;
      var count := 0;
      var size := INITIAL;
      var i := 0;
      var k := 0;  // which clock reading
      ghost var bs := Batches(|all|, 0, INITIAL, 0, elapsed);
      SlicesNone(all);
      while i < |all|
        invariant MIN <= size <= MAX && k <= |bs|
        invariant bs[k..] == Batches(|all|, i, size, k, elapsed)
        invariant forall j | 0 <= j < k :: timeLeft(j)
        invariant upserts == Slices(all, bs[..k]) && count == |upserts|
        invariant forall d :: d in idByDomain ==> d in upserts && idOf(d) == Some(idByDomain[d])
        invariant forall d :: d in upserts && idOf(d).Some? ==> d in idByDomain
        decreases |all| - i
      {
        NextBatch(|all|, i, size, k, elapsed);
        assert bs[k..][0] == bs[k] && bs[k..][1..] == bs[k + 1..];
        if !timeLeft(k) {
          return None;
        }
        SlicesNext(all, bs, k);
        var batch := all[i..Least(i + size, |all|)];
        UpsertBatch(batch, idOf);
        count := count + |batch|;
        var next := Resized(size, elapsed(k));
        i, size, k := i + next, next, k + 1;
      }
      BatchesDone(|all|, i, size, k, elapsed);
      assert bs[..k] == bs;
      return Some(count);
    }

    // One transaction of score inserts.
    method InsertBatch(batch: seq<string>)
      requires forall d | d in batch :: d in idByDomain
      modifies this`scoreRows
      ensures Second(scoreRows) == Second(old(scoreRows)) + batch && |scoreRows| == |old(scoreRows)| + |batch|
      ensures forall r | r in scoreRows :: r in old(scoreRows) || (r.1 in batch && r.0 == idByDomain[r.1])
    {
      for j := 0 to |batch|
        invariant Second(scoreRows) == Second(old(scoreRows)) + batch[..j] && |scoreRows| == |old(scoreRows)| + j
        invariant forall r | r in scoreRows :: r in old(scoreRows) || (r.1 in batch && r.0 == idByDomain[r.1])
      {
        SecondSnoc(scoreRows, (idByDomain[batch[j]], batch[j]));
        scoreRows := scoreRows + [(idByDomain[batch[j]], batch[j])];
        assert batch[..j + 1] == batch[..j] + [batch[j]];
      }
      assert batch[..|batch|] == batch;
    }

    /** Phase 2: each score row carries the id recorded for its own domain. */
    method InsertScores(scored: seq<Scored>, elapsed: nat -> nat, timeLeft: nat -> bool)
      returns (persisted: Option<nat>)
      requires scoreRows == []
      modifies this`scoreRows
      ensures
        var withIds := Recorded(scored, idByDomain);
        var bs := Batches(|withIds|, 0, INITIAL, 0, elapsed);
        && (persisted.Some? <==> forall k | 0 <= k < |bs| :: timeLeft(k))
        && (persisted.Some? ==> Second(scoreRows) == Slices(withIds, bs) && persisted.value == |scoreRows|)
      ensures forall r | r in scoreRows :: Scored(r.1, true) in scored && r.1 in idByDomain && r.0 == idByDomain[r.1]
    {
      var withIds := Recorded(scored, idByDomain);
      RecordedMembers(scored, idByDomain);
      hide Batches, Slices, Resized;
      var count := 0;
      var size := INITIAL;
      var i := 0;
      var k := 0;
      ghost var bs := Batches(|withIds|, 0, INITIAL, 0, elapsed);
      SlicesNone(withIds);
      while i < |withIds|
        invariant MIN <= size <= MAX && k <= |bs|
        invariant bs[k..] == Batches(|withIds|, i, size, k, elapsed)
        invariant forall j | 0 <= j < k :: timeLeft(j)
        invariant Second(scoreRows) == Slices(withIds, bs[..k]) && count == |scoreRows|
        invariant forall r | r in scoreRows :: r.1 in withIds && r.0 == idByDomain[r.1]
        decreases |withIds| - i
      {
        NextBatch(|withIds|, i, size, k, elapsed);
        assert bs[k..][0] == bs[k] && bs[k..][1..] == bs[k + 1..];
        if !timeLeft(k) {
          return None;
        }
        SlicesNext(withIds, bs, k);
        var batch := withIds[i..Least(i + size, |withIds|)];
        InsertBatch(batch);
        count := count + |batch|;
        var next := Resized(size, elapsed(k));
        i, size, k := i + next, next, k + 1;
      }
      BatchesDone(|withIds|, i, size, k, elapsed);
      assert bs[..k] == bs;
      return Some(count);
    }
  }

  // What the batches write, concatenated.
  function Slices(all: seq<string>, bs: seq<Batch>): seq<string> {
    if bs == [] then []
    else
      var b := bs[|bs| - 1];
      Slices(all, bs[..|bs| - 1]) +
      (if b.start <= |all| then all[b.start..if b.start + b.size < |all| then b.start + b.size else |all|] else [])
  }

  lemma SlicesNone(all: seq<string>)
    ensures Slices(all, []) == []
  {
  }

  lemma SlicesNext(all: seq<string>, bs: seq<Batch>, k: nat)
    requires k < |bs|
    ensures bs[k].start <= |all| ==>
      Slices(all, bs[..k + 1]) == Slices(all, bs[..k]) + all[bs[k].start..Least(bs[k].start + bs[k].size, |all|)]
  {
    assert bs[..k + 1][..k] == bs[..k];
  }

  function Recorded(scored: seq<Scored>, ids: map<string, nat>): seq<string> {
    if scored == [] then []
    else (if scored[0].hasScore && scored[0].domain in ids then [scored[0].domain] else []) + Recorded(scored[1..], ids)
  }

  lemma {:induction false} RecordedMembers(scored: seq<Scored>, ids: map<string, nat>)
    ensures forall d :: d in Recorded(scored, ids) <==> Scored(d, true) in scored && d in ids
  {
    if scored != [] {
      RecordedMembers(scored[1..], ids);
      assert scored == [scored[0]] + scored[1..];
    }
  }

  function Second(rows: seq<(nat, string)>): seq<string> {
    seq(|rows|, i requires 0 <= i < |rows| => rows[i].1)
  }

  lemma SecondSnoc(rows: seq<(nat, string)>, r: (nat, string))
    ensures Second(rows + [r]) == Second(rows) + [r.1]
  {
  }

  // ---- What is written -------------------------------------------------------------------------

  // The sizes a run can reach from the initial one.
  predicate Reachable(size: nat) {
    size in {100, 125, 200, 250, 400, 500, 800, 1000}
  }

  lemma ResizedReachable(size: nat, elapsed: nat)
    requires Reachable(size)
    ensures Reachable(Resized(size, elapsed)) && size <= 2 * Resized(size, elapsed)
    ensures MIN <= size <= MAX && MIN <= Resized(size, elapsed) <= MAX
  {
  }

  lemma {:induction false} BatchesStartLater(n: nat, i: nat, size: nat, k: nat, elapsed: nat -> nat, x: nat)
    requires MIN <= size <= MAX && x < i
    ensures
      var bs := Batches(n, i, size, k, elapsed);
      && (forall b <- bs :: !Writes(b, n, x) && !Skips(b, n, x) && !Repeats(b, n, x))
      && Writers(bs, n, x) == 0
    decreases n - i
  {
    if i < n {
      var next := Resized(size, elapsed(k));
      var bs := Batches(n, i, size, k, elapsed);
      assert bs[0] == Batch(i, size, next) && bs[1..] == Batches(n, i + next, next, k + 1, elapsed);
      BatchesStartLater(n, i + next, next, k + 1, elapsed, x);
    }
  }

  lemma FirstAndRest(b: Batch, rest: seq<Batch>, n: nat, x: nat)
    ensures var bs := [b] + rest;
      && Writers(bs, n, x) == (if Writes(b, n, x) then 1 else 0) + Writers(rest, n, x)
      && ((exists c <- bs :: Skips(c, n, x)) <==> Skips(b, n, x) || exists c <- rest :: Skips(c, n, x))
      && ((exists c <- bs :: Repeats(c, n, x)) <==> Repeats(b, n, x) || exists c <- rest :: Repeats(c, n, x))
  {
  }

  // Written by none exactly if skipped, by several exactly if repeated.
  ghost predicate Characterised(bs: seq<Batch>, n: nat, x: nat) {
    && (Writers(bs, n, x) == 0 <==> exists b <- bs :: Skips(b, n, x))
    && (Writers(bs, n, x) >= 2 <==> exists b <- bs :: Repeats(b, n, x))
  }

  lemma OwnedByFirst(b: Batch, rest: seq<Batch>, n: nat, x: nat)
    requires b.start <= x < n && x < b.start + b.next && Writers(rest, n, x) == 0
    requires forall c <- rest :: !Skips(c, n, x) && !Repeats(c, n, x)
    ensures Characterised([b] + rest, n, x)
  {
    FirstAndRest(b, rest, n, x);
    hide Writers;
  }

  lemma OwnedByRest(b: Batch, rest: seq<Batch>, n: nat, x: nat)
    requires b.start + b.next <= x < n && Characterised(rest, n, x)
    requires x < b.start + b.size ==> Writers(rest, n, x) >= 1
    ensures Characterised([b] + rest, n, x)
  {
    FirstAndRest(b, rest, n, x);
    hide Writers;
  }

  /**
    Advancing by the resized batch, an index is written by no batch exactly when some batch
    grew over it, and by more than one exactly when some batch shrank back over it.
   */
  lemma {:induction false} GapsAndOverlaps(n: nat, i: nat, size: nat, k: nat, elapsed: nat -> nat, x: nat)
    requires Reachable(size) && i <= x < n
    ensures Characterised(Batches(n, i, size, k, elapsed), n, x)
    decreases n - i
  {
    hide *;
    var next := Resized(size, elapsed(k));
    ResizedReachable(size, elapsed(k));
    NextBatch(n, i, size, k, elapsed);
    var b, rest := Batch(i, size, next), Batches(n, i + next, next, k + 1, elapsed);
    if x < i + next {
      BatchesStartLater(n, i + next, next, k + 1, elapsed, x);
      OwnedByFirst(b, rest, n, x);
    } else {
      GapsAndOverlaps(n, i + next, next, k + 1, elapsed, x);
      if x < i + size {
        NextWrites(n, i + next, next, k + 1, elapsed, x);
      }
      OwnedByRest(b, rest, n, x);
    }
  }

  // An index a shrunk batch reached past its successor's start is written by that successor.
  lemma NextWrites(n: nat, i: nat, size: nat, k: nat, elapsed: nat -> nat, x: nat)
    requires MIN <= size <= MAX && i <= x < n && x < i + size
    ensures Writers(Batches(n, i, size, k, elapsed), n, x) >= 1
  {
    NextBatch(n, i, size, k, elapsed);
    hide Resized, Batches, Writers;
    FirstWrites(Batches(n, i, size, k, elapsed), n, x);
  }

  lemma FirstWrites(bs: seq<Batch>, n: nat, x: nat)
    requires bs != [] && Writes(bs[0], n, x)
    ensures Writers(bs, n, x) >= 1
  {
  }

  /** Every candidate is written if and only if no batch before the last grows. */
  lemma AllWrittenIff(n: nat, elapsed: nat -> nat)
    ensures
      var bs := Batches(n, 0, INITIAL, 0, elapsed);
      (forall x | 0 <= x < n :: Writers(bs, n, x) > 0)
          <==> (forall b | b in bs :: b.next <= b.size || b.start + b.size >= n)
  {
    var bs := Batches(n, 0, INITIAL, 0, elapsed);
    forall x | 0 <= x < n
      ensures Writers(bs, n, x) == 0 <==> exists b <- bs :: Skips(b, n, x)
    {
      GapsAndOverlaps(n, 0, INITIAL, 0, elapsed, x);
    }
    if b :| b in bs && !(b.next <= b.size || b.start + b.size >= n) {
      assert Skips(b, n, b.start + b.size);
      assert Writers(bs, n, b.start + b.size) == 0;
    } else {
      forall x | 0 <= x < n
        ensures Writers(bs, n, x) > 0
      {
        assert forall b | b in bs :: !Skips(b, n, x);
      }
    }
  }

  /** A batch grows exactly when it was fast and below the maximum. */
  lemma {:induction false} GrowthIsSpeed(n: nat, i: nat, size: nat, k: nat, elapsed: nat -> nat, j: nat)
    requires MIN <= size <= MAX && j < |Batches(n, i, size, k, elapsed)|
    ensures
      var b := Batches(n, i, size, k, elapsed)[j];
      && MIN <= b.size <= MAX && MIN <= b.next <= MAX
      && (b.next > b.size <==> elapsed(k + j) < FAST_MS && b.size < MAX)
      && (b.next < b.size <==> elapsed(k + j) > SLOW_MS && b.size > MIN)
    decreases j
  {
    ResizedInBounds(size, elapsed(k));
    if j > 0 {
      GrowthIsSpeed(n, i + Resized(size, elapsed(k)), Resized(size, elapsed(k)), k + 1, elapsed, j - 1);
    }
  }

  /** One fast first batch is enough: of 501 candidates the last is never written. */
  lemma FastFirstBatchSkipsCandidates()
    ensures Writers(Batches(501, 0, INITIAL, 0, k => 10), 501, 500) == 0
  {
  }

  // ---- Advancing by what was written ------------------------------------------------------------

  /** The loop with `i += batch.length`. */
  function BySliceLength(n: nat, i: nat, size: nat, k: nat, elapsed: nat -> nat): seq<Batch>
    requires MIN <= size <= MAX
    decreases n - i
  {
    if i >= n then []
    else
      var next := Resized(size, elapsed(k));
      [Batch(i, size, next)] + BySliceLength(n, Least(i + size, n), next, k + 1, elapsed)
  }

  /** It writes every candidate exactly once. */
  lemma {:induction false} SliceLengthWritesOnce(n: nat, i: nat, size: nat, k: nat, elapsed: nat -> nat, x: nat)
    requires MIN <= size <= MAX && x < n
    ensures Writers(BySliceLength(n, i, size, k, elapsed), n, x) == if i <= x then 1 else 0
    decreases n - i
  {
    if i < n {
      var next := Resized(size, elapsed(k));
      SliceLengthWritesOnce(n, Least(i + size, n), next, k + 1, elapsed, x);
      var bs := BySliceLength(n, i, size, k, elapsed);
      assert bs[0] == Batch(i, size, next) && bs[1..] == BySliceLength(n, Least(i + size, n), next, k + 1, elapsed);
    }
  }
}
