/**
  The advisory-lock table of the pooled SQLite provider: one row per lock name,
  an expiry kept in whole seconds, the id of the worker that inserted the row and
  a fence token.  The class carries out the statements; the functions say what the
  table is afterwards; the lemmas relate the table to an abstract map with at most
  one holder per name.
 */
module FencedLock {
  import opened Wrappers

  type WorkerId = nat
  type Token = nat

  // `fence` is NULL on rows inserted by the unfenced `tryLock`.
  datatype Row = Row(workerId: WorkerId, expiresAt: nat, fence: Option<Token>, renewals: nat)
  type Table = map<string, Row>

  // Times are stored and compared through datetime(.., 'unixepoch'), which drops milliseconds.
  function Seconds(ms: nat): nat {
    ms / 1000
  }

  predicate Live(row: Row, now: nat) {
    Seconds(now) <= row.expiresAt
  }

  /** The row a fenced renewal or unlock by `me` with `token` addresses. */
  predicate Owns(t: Table, name: string, me: WorkerId, token: Token) {
    name in t && t[name].workerId == me && t[name].fence == Some(token)
  }

  function Purged(t: Table, name: string, now: nat): Table {
    if name in t && t[name].expiresAt < Seconds(now) then t - {name} else t
  }

  function TryFenced(t: Table, name: string, ttl: nat, now: nat, me: WorkerId, drawn: Token): (Table, Option<Token>) {
    var p := Purged(t, name, now);
    if name !in p then (p[name := Row(me, Seconds(now + ttl), Some(drawn), 0)], Some(drawn))
    else if p[name].workerId == me && Live(p[name], now) then (p, p[name].fence)
    else (p, None)
  }

  function RenewFenced(t: Table, name: string, ttl: nat, now: nat, me: WorkerId, token: Token): (Table, bool) {
    if Owns(t, name, me, token) && Live(t[name], now) then
      (t[name := t[name].(expiresAt := Seconds(now + ttl), renewals := t[name].renewals + 1)], true)
    else (t, false)
  }

  function UnlockFenced(t: Table, name: string, me: WorkerId, token: Token): Table {
    if Owns(t, name, me, token) then t - {name} else t
  }

  function TryPlain(t: Table, name: string, ttl: nat, now: nat, me: WorkerId): (Table, bool) {
    var p := Purged(t, name, now);
    if name !in p then (p[name := Row(me, Seconds(now + ttl), None, 0)], true) else (p, false)
  }

  function RenewPlain(t: Table, name: string, ttl: nat, now: nat, me: WorkerId): (Table, bool) {
    if name in t && t[name].workerId == me && Live(t[name], now) then
      (t[name := t[name].(expiresAt := Seconds(now + ttl))], true)
    else (t, false)
  }

  function UnlockPlain(t: Table, name: string, me: WorkerId): Table {
    if name in t && t[name].workerId == me then t - {name} else t
  }

  // ---- The provider's statements, in place ------------------------------------------------

  class PipelineLocks {
    var rows: Table

    constructor ()
      ensures rows == map[]
    {
      rows := map[];
    }

    // DELETE .. WHERE lock_name = ? AND expires_at < now
    method DeleteExpired(name: string, now: nat)
      modifies this
      ensures rows == Purged(old(rows), name, now)
    {
      if name in rows && rows[name].expiresAt < Seconds(now) {
        rows := rows - {name};
      }
    }

    // INSERT OR IGNORE
    method InsertOrIgnore(name: string, row: Row) returns (changes: nat)
      modifies this
      ensures changes == (if name in old(rows) then 0 else 1)
      ensures rows == if name in old(rows) then old(rows) else old(rows)[name := row]
    {
      if name in rows {
        changes := 0;
      } else {
        rows := rows[name := row];
        changes := 1;
      }
    }

    method TryLockWithFence(name: string, ttl: nat, now: nat, me: WorkerId, drawn: Token)
      returns (fence: Option<Token>)
      modifies this
      ensures (rows, fence) == TryFenced(old(rows), name, ttl, now, me, drawn)
    {
      DeleteExpired(name, now);
      var changes := InsertOrIgnore(name, Row(me, Seconds(now + ttl), Some(drawn), 0));
      if changes > 0 {
        return Some(drawn);
      }
      if rows[name].workerId == me && Live(rows[name], now) && rows[name].fence.Some? {
        return rows[name].fence;
      }
      return None;
    }

    method RenewLockWithFence(name: string, ttl: nat, now: nat, me: WorkerId, token: Token) returns (ok: bool)
      modifies this
      ensures (rows, ok) == RenewFenced(old(rows), name, ttl, now, me, token)
    {
      ok := name in rows && Live(rows[name], now) && rows[name].workerId == me && rows[name].fence == Some(token);
      if ok {
        rows := rows[name := rows[name].(expiresAt := Seconds(now + ttl), renewals := rows[name].renewals + 1)];
      }
    }

    method UnlockWithFence(name: string, me: WorkerId, token: Token)
      modifies this
      ensures rows == UnlockFenced(old(rows), name, me, token)
    {
      if name in rows && rows[name].workerId == me && rows[name].fence == Some(token) {
        rows := rows - {name};
      }
    }

    method TryLock(name: string, ttl: nat, now: nat, me: WorkerId) returns (ok: bool)
      modifies this
      ensures (rows, ok) == TryPlain(old(rows), name, ttl, now, me)
    {
      DeleteExpired(name, now);
      var changes := InsertOrIgnore(name, Row(me, Seconds(now + ttl), None, 0));
      ok := changes > 0;
    }

    method RenewLock(name: string, ttl: nat, now: nat, me: WorkerId) returns (ok: bool)
      modifies this
      ensures (rows, ok) == RenewPlain(old(rows), name, ttl, now, me)
    {
      ok := name in rows && Live(rows[name], now) && rows[name].workerId == me;
      if ok {
        rows := rows[name := rows[name].(expiresAt := Seconds(now + ttl))];
      }
    }

    method Unlock(name: string, me: WorkerId)
      modifies this
      ensures rows == UnlockPlain(old(rows), name, me)
    {
      if name in rows && rows[name].workerId == me {
        rows := rows - {name};
      }
    }
  }

  // ---- Refinement of an abstract lock map --------------------------------------------------

  datatype Holder = Holder(worker: WorkerId, fence: Option<Token>)

  /** Who holds each name at instant `now`; expired rows hold nothing. */
  ghost function Holders(t: Table, now: nat): map<string, Holder> {
    map n | n in t && Live(t[n], now) :: Holder(t[n].workerId, t[n].fence)
  }

  lemma AcquireRefines(t: Table, name: string, ttl: nat, now: nat, me: WorkerId, drawn: Token)
    ensures
      var (t', got) := TryFenced(t, name, ttl, now, me, drawn);
      var h := Holders(t, now);
      && Holders(t', now) == (if name in h then h else h[name := Holder(me, Some(drawn))])
      && got == (if name !in h then Some(drawn) else if h[name].worker == me then h[name].fence else None)
      && (name !in h ==> name in t' && t'[name].renewals == 0)
  {
  }

  lemma RenewRefines(t: Table, name: string, ttl: nat, now: nat, me: WorkerId, token: Token)
    ensures
      var (t', ok) := RenewFenced(t, name, ttl, now, me, token);
      && Holders(t', now) == Holders(t, now)
      && (ok <==> name in Holders(t, now) && Holders(t, now)[name] == Holder(me, Some(token)))
      && (ok ==> forall later: nat :: name in Holders(t', later) <==> Seconds(later) <= Seconds(now + ttl))
      && (ok ==> t'[name].renewals - t[name].renewals == 1)
  {
  }

  lemma UnlockRefines(t: Table, name: string, now: nat, me: WorkerId, token: Token)
    ensures
      var h := Holders(t, now);
      Holders(UnlockFenced(t, name, me, token), now)
      == if name in h && h[name] == Holder(me, Some(token)) then h - {name} else h
  {
  }

  /** Without fences: granted exactly when nobody holds the name, the own row included. */
  lemma TryPlainRefines(t: Table, name: string, ttl: nat, now: nat, me: WorkerId)
    ensures
      var (t', ok) := TryPlain(t, name, ttl, now, me);
      var h := Holders(t, now);
      && Holders(t', now) == (if name in h then h else h[name := Holder(me, None)])
      && (ok <==> name !in h) && (ok ==> name in t' && t'[name].renewals == 0)
      && (ok ==> forall later: nat :: name in Holders(t', later) <==> Seconds(later) <= Seconds(now + ttl))
  {
  }

  /** Renewed exactly for the worker that holds it, fenced or not, who keeps its fence. */
  lemma RenewPlainRefines(t: Table, name: string, ttl: nat, now: nat, me: WorkerId)
    ensures
      var (t', ok) := RenewPlain(t, name, ttl, now, me);
      && Holders(t', now) == Holders(t, now)
      && (ok <==> name in Holders(t, now) && Holders(t, now)[name].worker == me)
      && (ok ==> forall later: nat :: name in Holders(t', later) <==> Seconds(later) <= Seconds(now + ttl))
      && (if ok then t'[name].renewals == t[name].renewals else t' == t)
  {
  }

  lemma UnlockPlainRefines(t: Table, name: string, now: nat, me: WorkerId)
    ensures
      var h := Holders(t, now);
      Holders(UnlockPlain(t, name, me), now) == if name in h && h[name].worker == me then h - {name} else h
  {
  }

  /** At every instant a row can be purged by a rival or renewed by its owner, never both and never neither. */
  lemma PurgeableXorRenewable(t: Table, name: string, ttl: nat, now: nat, token: Token)
    requires name in t && t[name].fence == Some(token)
    ensures (name !in Purged(t, name, now)) <==> !RenewFenced(t, name, ttl, now, t[name].workerId, token).1
  {
  }

  // ---- Stale fences over whole histories ---------------------------------------------------

  // `Purge` is a try whose INSERT failed after its DELETE had run.
  datatype Op =
    | TryF(name: string, ttl: nat, me: WorkerId, drawn: Token)
    | RenewF(name: string, ttl: nat, me: WorkerId, token: Token)
    | UnlockF(name: string, me: WorkerId, token: Token)
    | TryP(name: string, ttl: nat, me: WorkerId)
    | RenewP(name: string, ttl: nat, me: WorkerId)
    | UnlockP(name: string, me: WorkerId)
    | Purge(name: string)

  datatype Timed = Timed(op: Op, at: nat)

  function Apply(t: Table, e: Timed): Table {
    match e.op
    case TryF(n, ttl, me, drawn) => TryFenced(t, n, ttl, e.at, me, drawn).0
    case RenewF(n, ttl, me, token) => RenewFenced(t, n, ttl, e.at, me, token).0
    case UnlockF(n, me, token) => UnlockFenced(t, n, me, token)
    case TryP(n, ttl, me) => TryPlain(t, n, ttl, e.at, me).0
    case RenewP(n, ttl, me) => RenewPlain(t, n, ttl, e.at, me).0
    case UnlockP(n, me) => UnlockPlain(t, n, me)
    case Purge(n) => Purged(t, n, e.at)
  }

  function History(t: Table, es: seq<Timed>): Table
    decreases |es|
  {
    if es == [] then t else History(Apply(t, es[0]), es[1..])
  }

  /** Every token drawn in the history is new: not among `issued` and not drawn before. */
  predicate DrawsFresh(issued: set<Token>, es: seq<Timed>)
    decreases |es|
  {
    es != [] ==>
      if es[0].op.TryF? then es[0].op.drawn !in issued && DrawsFresh(issued + {es[0].op.drawn}, es[1..])
      else DrawsFresh(issued, es[1..])
  }

  predicate Carries(t: Table, name: string, token: Token) {
    name in t && t[name].fence == Some(token)
  }

  /**
    Once a token that has been issued is not the one on the row, no later operation by
    anyone brings it back: renewing or unlocking with it leaves the table as it is.
   */
  lemma {:induction false} StaleFenceIsInert(t: Table, issued: set<Token>, es: seq<Timed>, name: string, token: Token)
    requires token in issued && !Carries(t, name, token)
    requires DrawsFresh(issued, es)
    ensures !Carries(History(t, es), name, token)
    ensures forall me, ttl, now :: RenewFenced(History(t, es), name, ttl, now, me, token) == (History(t, es), false)
    ensures forall me :: UnlockFenced(History(t, es), name, me, token) == History(t, es)
    decreases |es|
  {
    if es != [] {
      var issued' := if es[0].op.TryF? then issued + {es[0].op.drawn} else issued;
      StaleFenceIsInert(Apply(t, es[0]), issued', es[1..], name, token);
    }
  }

  /** Losing the lock by expiry: whoever re-acquires the name makes the old fence stale for good. */
  lemma ReacquiredFenceIsInert(t: Table, issued: set<Token>, name: string, ttl: nat, now: nat,
                               rival: WorkerId, drawn: Token, es: seq<Timed>, token: Token)
    requires Carries(t, name, token) && !Live(t[name], now)
    requires token in issued && DrawsFresh(issued, [Timed(TryF(name, ttl, rival, drawn), now)] + es)
    ensures TryFenced(t, name, ttl, now, rival, drawn).1 == Some(drawn)
    ensures
      var t' := History(t, [Timed(TryF(name, ttl, rival, drawn), now)] + es);
      forall me, ttl', now' ::
        RenewFenced(t', name, ttl', now', me, token) == (t', false) && UnlockFenced(t', name, me, token) == t'
  {
    var e := Timed(TryF(name, ttl, rival, drawn), now);
    assert ([e] + es)[1..] == es;
    assert drawn != token;
    StaleFenceIsInert(Apply(t, e), issued + {drawn}, es, name, token);
  }
}
