/**
  Schema migrations: the gate that compares the applied names with the manifest, the run
  that applies what is missing, the rollback of the last one, and what a history of boots,
  rollbacks and crashes does to the schema.
 */
module Migrations {
  import opened Wrappers

  // `S` is the schema; a migration is a name and what its functions do to it.
  datatype Migration<!S> = Migration(name: string, up: S -> S, down: Option<S -> S>)

  function Names<S>(ms: seq<Migration<S>>): seq<string> {
    seq(|ms|, i requires 0 <= i < |ms| => ms[i].name)
  }

  ghost predicate Distinct(names: seq<string>) {
    forall i, j | 0 <= i < j < |names| :: names[i] != names[j]
  }

  /** The schema after the first `k` migrations. */
  function Fold<S>(ms: seq<Migration<S>>, s0: S, k: nat): S
    requires k <= |ms|
  {
    if k == 0 then s0 else ms[k - 1].up(Fold(ms, s0, k - 1))
  }

  // ---- The gate ------------------------------------------------------------------------------

  datatype Compatibility = Compatibility(ok: bool, unknown: seq<string>)

  /** The applied names the manifest lacks, once each. */
  ghost predicate IsUnknown(unknown: seq<string>, applied: seq<string>, manifest: seq<string>) {
    && Distinct(unknown)
    && forall n :: n in unknown <==> n in applied && n !in manifest
  }

  /** Accepts exactly the prefixes of the manifest. */
  method AssertSchemaCompatible(applied: seq<string>, manifest: seq<string>) returns (r: Compatibility)
    ensures r.ok <==> applied <= manifest
    ensures IsUnknown(r.unknown, applied, manifest)
  {
    if |applied| == 0 {
      return Compatibility(true, []);
    }
    var unknown := [];
    for i := 0 to |applied|
      invariant IsUnknown(unknown, applied[..i], manifest)
    {
      if applied[i] !in manifest && applied[i] !in unknown {
        unknown := unknown + [applied[i]];
      }
    }
    assert applied[..|applied|] == applied;
    if |applied| > |manifest| {
      return Compatibility(false, unknown);
    }
    if |unknown| > 0 {
      assert unknown[0] in unknown;
      PrefixKnowsAll(applied, manifest, unknown[0]);
      return Compatibility(false, unknown);
    }
    for i := 0 to |applied|
      invariant forall j | 0 <= j < i :: applied[j] == manifest[j]
    {
      if applied[i] != manifest[i] {
        return Compatibility(false, unknown);
      }
    }
    return Compatibility(true, unknown);
  }

  lemma PrefixKnowsAll(applied: seq<string>, manifest: seq<string>, n: string)
    requires n in applied && n !in manifest
    ensures !(applied <= manifest)
  {
  }

  // ---- The migrator --------------------------------------------------------------------------

  datatype Db<!S> = Db(schema: S, applied: seq<string>)

  /** Everything missing applied in order, each name recorded after its `up`. */
  function Migrated<S>(db: Db<S>, ms: seq<Migration<S>>, done: set<string>): Db<S>
    decreases |ms|
  {
    if ms == [] then db
    else if ms[0].name in done then Migrated(db, ms[1..], done)
    else Migrated(Db(ms[0].up(db.schema), db.applied + [ms[0].name]), ms[1..], done)
  }

  /** `down` of the last applied migration, and its row deleted. */
  function RolledBack<S>(db: Db<S>, ms: seq<Migration<S>>, name: string): Option<Db<S>> {
    var i := FirstNamed(ms, name);
    if i < |ms| && ms[i].down.Some? && db.applied != [] && db.applied[|db.applied| - 1] == name then
      Some(Db(ms[i].down.value(db.schema), Deleted(db.applied, name)))
    else None
  }

  function FirstNamed<S>(ms: seq<Migration<S>>, name: string): (i: nat)
    ensures i <= |ms| && (i < |ms| ==> ms[i].name == name) && forall j | 0 <= j < i :: ms[j].name != name
  {
    if ms == [] || ms[0].name == name then 0 else FirstNamed(ms[1..], name) + 1
  }

  // DELETE FROM schema_migrations WHERE migration_name = ?
  function Deleted(applied: seq<string>, name: string): seq<string> {
    if applied == [] then []
    else (if applied[0] == name then [] else [applied[0]]) + Deleted(applied[1..], name)
  }

  class Database<!S> {
    var schema: S
    var applied: seq<string>

    constructor (schema: S)
      ensures this.schema == schema && applied == []
    {
      this.schema := schema;
      applied := [];
    }

    ghost function View(): Db<S>
      reads this
    {
      Db(schema, applied)
    }

    method RunMigrations(ms: seq<Migration<S>>)
      modifies this
      ensures View() == Migrated(old(View()), ms, set n | n in old(applied))
    {
      var done := set n | n in applied;
      for i := 0 to |ms|
        invariant Migrated(View(), ms[i..], done) == Migrated(old(View()), ms, done)
      {
        assert ms[i..][1..] == ms[i + 1..] && ms[i..][0] == ms[i];
        if ms[i].name !in done {
          schema := ms[i].up(schema);
          applied := applied + [ms[i].name];
        }
      }
    }

    method RollbackMigration(ms: seq<Migration<S>>, name: string) returns (ok: bool)
      modifies this
      ensures ok <==> RolledBack(old(View()), ms, name).Some?
      ensures View() == if ok then RolledBack(old(View()), ms, name).value else old(View())
    {
      var i := FirstNamed(ms, name);
      if i == |ms| || ms[i].down.None? {
        return false;
      }
      if |applied| == 0 || applied[|applied| - 1] != name {
        return false;
      }
      schema := ms[i].down.value(schema);
      applied := Deleted(applied, name);
      return true;
    }

    /**
      Gate, then run.  The gate's read of the applied names gives none when it fails, for whatever
      reason; the run reads them again, and throws when it cannot.
     */
    method EnsureSchemaUpToDate(ms: seq<Migration<S>>, gateReadFails: bool, runReadFails: bool) returns (ok: bool)
      modifies this
      ensures ok <==> (gateReadFails || old(applied) <= Names(ms)) && !runReadFails
      ensures View() == if ok then Migrated(old(View()), ms, set n | n in old(applied)) else old(View())
    {
      var compat := AssertSchemaCompatible(if gateReadFails then [] else applied, Names(ms));
      if !compat.ok || runReadFails {
        return false;
      }
      RunMigrations(ms);
      return true;
    }
  }

  // ---- What a successful boot and a rollback do ----------------------------------------------

  lemma {:induction false} SkipsApplied<S>(db: Db<S>, ms: seq<Migration<S>>, k: nat, done: set<string>)
    requires k <= |ms| && forall i | 0 <= i < k :: ms[i].name in done
    ensures Migrated(db, ms, done) == Migrated(db, ms[k..], done)
    decreases k
  {
    if k > 0 {
      SkipsApplied(db, ms[1..], k - 1, done);
      assert ms[1..][k - 1..] == ms[k..];
    } else {
      assert ms[0..] == ms;
    }
  }

  lemma {:induction false} RunsMissing<S>(ms: seq<Migration<S>>, s0: S, k: nat, db: Db<S>, done: set<string>)
    requires k <= |ms| && Distinct(Names(ms)) && forall i | k <= i < |ms| :: ms[i].name !in done
    requires db == Db(Fold(ms, s0, k), Names(ms)[..k])
    ensures Migrated(db, ms[k..], done) == Db(Fold(ms, s0, |ms|), Names(ms))
    decreases |ms| - k
  {
    if k == |ms| {
      assert ms[k..] == [] && Names(ms)[..k] == Names(ms);
    } else {
      assert ms[k..][0] == ms[k] && ms[k..][1..] == ms[k + 1..];
      assert Names(ms)[..k] + [ms[k].name] == Names(ms)[..k + 1];
      RunsMissing(ms, s0, k + 1, Db(Fold(ms, s0, k + 1), Names(ms)[..k + 1]), done);
    }
  }

  /** An accepted boot runs each missing `up` once, in order, and ends with the whole manifest applied. */
  lemma BootCompletes<S>(ms: seq<Migration<S>>, s0: S, k: nat)
    requires k <= |ms| && Distinct(Names(ms))
    ensures
      var applied := Names(ms)[..k];
      Migrated(Db(Fold(ms, s0, k), applied), ms, set n | n in applied) == Db(Fold(ms, s0, |ms|), Names(ms))
  {
    var applied := Names(ms)[..k];
    var done := set n | n in applied;
    var db := Db(Fold(ms, s0, k), applied);
    forall i | 0 <= i < k
      ensures ms[i].name in done
    {
      assert applied[i] == ms[i].name;
    }
    forall i | k <= i < |ms|
      ensures ms[i].name !in done
    {
      assert forall j | 0 <= j < k :: applied[j] == Names(ms)[j] != Names(ms)[i];
    }
    SkipsApplied(db, ms, k, done);
    RunsMissing(ms, s0, k, db, done);
  }

  lemma {:induction false} MigratedExtends<S>(db: Db<S>, ms: seq<Migration<S>>, done: set<string>)
    ensures db.applied <= Migrated(db, ms, done).applied
    ensures (exists m <- ms :: m.name !in done) ==> |Migrated(db, ms, done).applied| > |db.applied|
    decreases |ms|
  {
    if ms != [] {
      MigratedExtends(if ms[0].name in done then db else Db(ms[0].up(db.schema), db.applied + [ms[0].name]),
                      ms[1..], done);
    }
  }

  /**
    What the gate should have refused and lets through on a failed read: the names stay out of step
    with the manifest, so every later gate that reads them refuses; and the database is left alone
    exactly when it has all of the image's migrations.
   */
  lemma UnreadBoot<S>(db: Db<S>, ms: seq<Migration<S>>)
    requires !(db.applied <= Names(ms))
    ensures var v := Migrated(db, ms, set n | n in db.applied);
      && db.applied <= v.applied && !(v.applied <= Names(ms))
      && (v == db <==> forall m <- ms :: m.name in db.applied)
  {
    var done := set n | n in db.applied;
    MigratedExtends(db, ms, done);
    if forall m <- ms :: m.name in db.applied {
      SkipsApplied(db, ms, |ms|, done);
    }
  }

  /** So an image behind its database boots on one, unnoticed and with nothing to migrate. */
  lemma BehindImageBoots<S>(full: seq<Migration<S>>, s0: S, m: nat, k: nat)
    requires m < k <= |full|
    ensures
      var db, ms := Db(Fold(full, s0, k), Names(full)[..k]), full[..m];
      !(db.applied <= Names(ms)) && Migrated(db, ms, set n | n in db.applied) == db
  {
    var db, ms := Db(Fold(full, s0, k), Names(full)[..k]), full[..m];
    forall i | 0 <= i < m ensures ms[i].name in db.applied {
      assert db.applied[i] == ms[i].name;
    }
    UnreadBoot(db, ms);
  }

  lemma {:induction false} DeletedLast(applied: seq<string>, k: nat)
    requires Distinct(applied) && |applied| == k + 1
    ensures Deleted(applied, applied[k]) == applied[..k]
  {
    if k > 0 {
      DeletedLast(applied[1..], k - 1);
      assert applied[..k] == [applied[0]] + applied[1..][..k - 1];
    }
  }

  /** `down` undoes `up` where the migration is applied. */
  ghost predicate DownInverts<S>(ms: seq<Migration<S>>, s0: S) {
    forall k | 0 <= k < |ms| && ms[k].down.Some? :: ms[k].down.value(Fold(ms, s0, k + 1)) == Fold(ms, s0, k)
  }

  lemma FirstNamedAt<S>(ms: seq<Migration<S>>, k: nat)
    requires k < |ms| && Distinct(Names(ms))
    ensures FirstNamed(ms, ms[k].name) == k
  {
    var i := FirstNamed(ms, ms[k].name);
    assert i <= k && Names(ms)[i] == Names(ms)[k];
  }

  lemma RollbackStepsBack<S>(ms: seq<Migration<S>>, s0: S, k: nat, name: string)
    requires k <= |ms| && Distinct(Names(ms)) && DownInverts(ms, s0)
    ensures
      var r := RolledBack(Db(Fold(ms, s0, k), Names(ms)[..k]), ms, name);
      && (r.Some? <==> k > 0 && name == ms[k - 1].name && ms[k - 1].down.Some?)
      && (r.Some? ==> r.value == Db(Fold(ms, s0, k - 1), Names(ms)[..k - 1]))
  {
    var applied := Names(ms)[..k];
    if k > 0 && name == ms[k - 1].name {
      FirstNamedAt(ms, k - 1);
      DeletedLast(applied, k - 1);
      assert applied[..k - 1] == Names(ms)[..k - 1];
    }
  }

  datatype Op = Boot | Rollback(name: string)

  /** One operation, with the image's migrations; a refused operation changes nothing. */
  function Perform<S>(db: Db<S>, ms: seq<Migration<S>>, op: Op): Db<S> {
    match op
    case Boot => if db.applied <= Names(ms) then Migrated(db, ms, set n | n in db.applied) else db
    case Rollback(name) => var r := RolledBack(db, ms, name); if r.Some? then r.value else db
  }

  function PerformAll<S>(db: Db<S>, ms: seq<Migration<S>>, ops: seq<Op>): Db<S>
    decreases |ops|
  {
    if ops == [] then db else PerformAll(Perform(db, ms, ops[0]), ms, ops[1..])
  }

  /**
    Any history of boots and rollbacks keeps the applied names a prefix of the manifest and,
    if each `down` inverts its `up`, the schema the fold over that prefix.
   */
  lemma {:induction false} HistoryKeepsPrefix<S>(ms: seq<Migration<S>>, s0: S, k: nat, ops: seq<Op>) returns (k': nat)
    requires k <= |ms| && Distinct(Names(ms)) && DownInverts(ms, s0)
    ensures k' <= |ms|
    ensures PerformAll(Db(Fold(ms, s0, k), Names(ms)[..k]), ms, ops) == Db(Fold(ms, s0, k'), Names(ms)[..k'])
    ensures ops != [] && ops[|ops| - 1].Boot? ==> k' == |ms|
    decreases |ops|
  {
    var db := Db(Fold(ms, s0, k), Names(ms)[..k]);
    if ops == [] {
      return k;
    }
    match ops[0]
    case Boot =>
      BootCompletes(ms, s0, k);
      assert Names(ms)[..|ms|] == Names(ms);
      k' := HistoryKeepsPrefix(ms, s0, |ms|, ops[1..]);
    case Rollback(name) =>
      RollbackStepsBack(ms, s0, k, name);
      k' := HistoryKeepsPrefix(ms, s0, if RolledBack(db, ms, name).Some? then k - 1 else k, ops[1..]);
  }

  /** No number of boots touches a database whose names are out of step with the image. */
  lemma {:induction false} BootsLeaveForeign<S>(db: Db<S>, ms: seq<Migration<S>>, boots: seq<Op>)
    requires !(db.applied <= Names(ms)) && forall op <- boots :: op.Boot?
    ensures PerformAll(db, ms, boots) == db
    decreases |boots|
  {
    if boots != [] {
      assert boots[0] in boots;
      BootsLeaveForeign(db, ms, boots[1..]);
    }
  }
}
