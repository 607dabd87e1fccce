/**
  Applying migration files under a checksum ledger, as one transaction.

  A script is an opaque action on the database that either succeeds or fails; it does
  not touch the ledger.  `executed` is the log of the scripts that took effect.
 */
module MigrationLedger {
  import opened Wrappers

  type Digest = string -> string

  /** A migration file: its name may not be text, and reading it may fail. */
  datatype Path = Path(filename: Option<string>, content: Option<string>)

  datatype Script = Script(filename: string, sql: string)

  datatype Db = Db(ledger: Option<map<string, string>>, executed: seq<Script>)

  function WithLedger(db: Db): Db {
    if db.ledger.None? then db.(ledger := Some(map[])) else db
  }

  /** One turn of the migration loop; `succeeds` is the fate of the script if it is executed. */
  function ApplyPath(digest: Digest, db: Db, path: Path, succeeds: bool): Result<Db>
    requires db.ledger.Some?
  {
    if path.filename.None? then Err("migration path has no UTF-8 filename")
    else if path.content.None? then Err("failed to read migration")
    else
      var name, sql := path.filename.value, path.content.value;
      if name in db.ledger.value then
        if db.ledger.value[name] != digest(sql) then Err("migration checksum mismatch") else Ok(db)
      else if !succeeds then Err("failed to execute migration")
      else Ok(Db(Some(db.ledger.value[name := digest(sql)]), db.executed + [Script(name, sql)]))
  }

  function ApplyAll(digest: Digest, db: Db, paths: seq<Path>, succeeds: nat -> bool): (r: Result<Db>)
    requires db.ledger.Some?
    ensures r.Ok? ==> r.value.ledger.Some?
  {
    if paths == [] then Ok(db)
    else
      var before := ApplyAll(digest, db, paths[..|paths| - 1], succeeds);
      if before.Err? then before
      else ApplyPath(digest, before.value, paths[|paths| - 1], succeeds(|paths| - 1))
  }

  /** What a migration run leaves behind if its transaction commits. */
  function Migrate(digest: Digest, db: Db, paths: seq<Path>, succeeds: nat -> bool): Result<Db> {
    ApplyAll(digest, WithLedger(db), paths, succeeds)
  }

  predicate Recorded(digest: Digest, db: Db, path: Path) {
    && db.ledger.Some? && path.filename.Some? && path.content.Some?
    && path.filename.value in db.ledger.value
    && db.ledger.value[path.filename.value] == digest(path.content.value)
  }

  /** What the verification pass accepts. */
  predicate Verified(digest: Digest, db: Db, paths: seq<Path>) {
    db.ledger.Some? && forall i :: 0 <= i < |paths| ==> Recorded(digest, db, paths[i])
  }

  /** The ledger lists exactly the executed scripts, each of which was executed once. */
  ghost predicate Consistent(digest: Digest, db: Db) {
    && (db.ledger.None? ==> db.executed == [])
    && (forall i, j :: 0 <= i < j < |db.executed| ==> db.executed[i].filename != db.executed[j].filename)
    && (forall i :: 0 <= i < |db.executed| ==>
          Recorded(digest, db, Path(Some(db.executed[i].filename), Some(db.executed[i].sql))))
    && (db.ledger.Some? ==> forall name :: name in db.ledger.value ==> Executed(db, name))
  }

  ghost predicate Executed(db: Db, name: string) {
    exists i :: 0 <= i < |db.executed| && db.executed[i].filename == name
  }

  /** Nothing recorded in `db` is changed or removed in `later`. */
  ghost predicate Extends(later: Db, db: Db) {
    && db.executed <= later.executed
    && (db.ledger.Some? ==>
          && later.ledger.Some?
          && forall name :: name in db.ledger.value ==>
               name in later.ledger.value && later.ledger.value[name] == db.ledger.value[name])
  }

  lemma ApplyPathKeeps(digest: Digest, db: Db, path: Path, succeeds: bool)
    requires db.ledger.Some? && Consistent(digest, db)
    requires ApplyPath(digest, db, path, succeeds).Ok?
    ensures Consistent(digest, ApplyPath(digest, db, path, succeeds).value)
    ensures Extends(ApplyPath(digest, db, path, succeeds).value, db)
    ensures Recorded(digest, ApplyPath(digest, db, path, succeeds).value, path)
  {
    var later := ApplyPath(digest, db, path, succeeds).value;
    if later != db {
      assert later.executed[|db.executed|].filename == path.filename.value;
      forall name | name in later.ledger.value
        ensures Executed(later, name)
      {
        if name != path.filename.value {
          assert Executed(db, name);
          var i :| 0 <= i < |db.executed| && db.executed[i].filename == name;
          assert later.executed[i].filename == name;
        }
      }
    }
  }

  lemma ExtensionKeepsVerified(digest: Digest, db: Db, later: Db, paths: seq<Path>)
    requires Verified(digest, db, paths) && Extends(later, db)
    ensures Verified(digest, later, paths)
  {
    forall i | 0 <= i < |paths|
      ensures Recorded(digest, later, paths[i])
    {
      assert Recorded(digest, db, paths[i]);
    }
  }

  lemma {:induction false} ApplyAllKeeps(digest: Digest, db: Db, paths: seq<Path>, succeeds: nat -> bool)
    requires db.ledger.Some? && Consistent(digest, db) && ApplyAll(digest, db, paths, succeeds).Ok?
    ensures var later := ApplyAll(digest, db, paths, succeeds).value;
            Consistent(digest, later) && Extends(later, db) && Verified(digest, later, paths)
  {
    if paths != [] {
      var front := paths[..|paths| - 1];
      ApplyAllKeeps(digest, db, front, succeeds);
      var before := ApplyAll(digest, db, front, succeeds).value;
      ApplyPathKeeps(digest, before, paths[|paths| - 1], succeeds(|paths| - 1));
      var later := ApplyAll(digest, db, paths, succeeds).value;
      ExtensionKeepsVerified(digest, before, later, front);
      assert forall i :: 0 <= i < |front| ==> front[i] == paths[i];
    }
  }

  /**
    A run that commits keeps every script executed once and every ledger entry as it
    was, and leaves a database that verification accepts for the same files.
   */
  lemma MigrateEstablishesVerified(digest: Digest, db: Db, paths: seq<Path>, succeeds: nat -> bool)
    requires Consistent(digest, db) && Migrate(digest, db, paths, succeeds).Ok?
    ensures var later := Migrate(digest, db, paths, succeeds).value;
            Consistent(digest, later) && Extends(later, db) && Verified(digest, later, paths)
  {
    assert Consistent(digest, WithLedger(db));
    ApplyAllKeeps(digest, WithLedger(db), paths, succeeds);
  }

  lemma {:induction false} VerifiedRunIsIdle(digest: Digest, db: Db, paths: seq<Path>, succeeds: nat -> bool)
    requires Verified(digest, db, paths)
    ensures ApplyAll(digest, db, paths, succeeds) == Ok(db)
  {
    if paths != [] {
      assert Recorded(digest, db, paths[|paths| - 1]);
      VerifiedRunIsIdle(digest, db, paths[..|paths| - 1], succeeds);
    }
  }

  lemma {:induction false} IdleRunIsVerified(digest: Digest, db: Db, paths: seq<Path>)
    requires db.ledger.Some? && ApplyAll(digest, db, paths, (_: nat) => false).Ok?
    ensures ApplyAll(digest, db, paths, (_: nat) => false) == Ok(db) && Verified(digest, db, paths)
  {
    if paths != [] {
      var front := paths[..|paths| - 1];
      IdleRunIsVerified(digest, db, front);
      forall i | 0 <= i < |paths|
        ensures Recorded(digest, db, paths[i])
      {
        if i < |front| {
          assert Recorded(digest, db, front[i]);
        }
      }
    }
  }

  /**
    Verification accepts a database exactly when the next run, whatever would become of
    its scripts, succeeds without executing one and without touching the ledger.
   */
  lemma VerifiedIffRunIsIdle(digest: Digest, db: Db, paths: seq<Path>)
    ensures Verified(digest, db, paths) <==> Migrate(digest, db, paths, (_: nat) => false) == Ok(db)
    ensures Verified(digest, db, paths) ==> forall succeeds: nat -> bool :: Migrate(digest, db, paths, succeeds) == Ok(db)
  {
    if Verified(digest, db, paths) {
      forall succeeds: nat -> bool
        ensures Migrate(digest, db, paths, succeeds) == Ok(db)
      {
        VerifiedRunIsIdle(digest, db, paths, succeeds);
      }
    } else if Migrate(digest, db, paths, (_: nat) => false) == Ok(db) {
      IdleRunIsVerified(digest, WithLedger(db), paths);
    }
  }

  lemma {:induction false} PrefixOfFailedRun(digest: Digest, db: Db, paths: seq<Path>, succeeds: nat -> bool, n: nat)
    requires db.ledger.Some? && n <= |paths| && ApplyAll(digest, db, paths[..n], succeeds).Err?
    ensures ApplyAll(digest, db, paths, succeeds).Err?
    decreases |paths|
  {
    if n == |paths| {
      assert paths[..n] == paths;
    } else {
      var front := paths[..|paths| - 1];
      assert front[..n] == paths[..n];
      PrefixOfFailedRun(digest, db, front, succeeds, n);
    }
  }

  /** The connection's database, whose fields are the committed state. */
  class Database {
    var ledger: Option<map<string, string>>
    var executed: seq<Script>

    constructor ()
      ensures View() == Db(None, [])
    {
      ledger, executed := None, [];
    }

    function View(): Db
      reads this
    {
      Db(ledger, executed)
    }

    /** The migration loop; the transaction's writes stay local until the commit. */
    method RunMigrations(digest: Digest, paths: seq<Path>, succeeds: nat -> bool, commits: bool) returns (r: Result<()>)
      modifies this
      ensures r.Ok? <==> Migrate(digest, old(View()), paths, succeeds).Ok? && commits
      ensures View() == if r.Ok? then Migrate(digest, old(View()), paths, succeeds).value else old(View())
    {
      var table := if ledger.Some? then ledger.value else map[];
      var log := executed;
      ghost var start := WithLedger(View());
      for i := 0 to |paths|
        invariant View() == old(View())
        invariant ApplyAll(digest, start, paths[..i], succeeds) == Ok(Db(Some(table), log))
      {
        assert paths[..i + 1][..i] == paths[..i] && paths[..i + 1][i] == paths[i];
        ghost var step := ApplyAll(digest, start, paths[..i + 1], succeeds);
        if step.Err? {
          PrefixOfFailedRun(digest, start, paths, succeeds, i + 1);
        }
        if paths[i].filename.None? {
          return Err("migration path has no UTF-8 filename");
        }
        if paths[i].content.None? {
          return Err("failed to read migration");
        }
        var name, sql := paths[i].filename.value, paths[i].content.value;
        if name in table {
          if table[name] != digest(sql) {
            return Err("migration checksum mismatch");
          }
          continue;
        }
        if !succeeds(i) {
          return Err("failed to execute migration");
        }
        log := log + [Script(name, sql)];
        table := table[name := digest(sql)];
      }
      assert paths[..|paths|] == paths;
      if !commits {
        return Err("failed to commit migrations");
      }
      ledger, executed := Some(table), log;
      return Ok(());
    }

    method VerifyMigrations(digest: Digest, paths: seq<Path>) returns (r: Result<()>)
      ensures r.Ok? <==> Verified(digest, View(), paths)
    {
      if ledger.None? {
        return Err("database migrations have not been applied");
      }
      for i := 0 to |paths|
        invariant forall k :: 0 <= k < i ==> Recorded(digest, View(), paths[k])
      {
        ghost var here := Recorded(digest, View(), paths[i]);
        if paths[i].filename.None? || paths[i].content.None? {
          return Err("failed to read migration");
        }
        if paths[i].filename.value !in ledger.value {
          return Err("database migration has not been applied");
        }
        if ledger.value[paths[i].filename.value] != digest(paths[i].content.value) {
          return Err("migration checksum mismatch");
        }
        assert here;
      }
      return Ok(());
    }
  }
}
