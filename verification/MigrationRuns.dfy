/**
  Any number of migrators and verifiers sharing one database and one advisory lock.

  Every statement a session sends is one step, and sessions interleave freely.  A
  session's reads see what is committed at that moment together with its own pending
  writes; only the lock keeps one session from working on another's stale view.
 */
module MigrationRuns {
  import opened Wrappers
  import opened MigrationLedger

  type Id = nat

  datatype Kind = Migrator | Verifier

  datatype Pc = Waiting | Locked | At(i: nat) | Missing(i: nat) | Ran(i: nat) | Done | Failed

  /** A session's pending writes: whether it made the ledger table, its rows and its scripts. */
  datatype Session = Session(
    kind: Kind,
    paths: seq<Path>,
    pc: Pc,
    created: bool,
    inserted: map<string, string>,
    ran: seq<Script>)

  datatype CommitRecord = CommitRecord(session: Id, paths: seq<Path>)

  /** `commits` is history: the migration runs that committed, in commit order. */
  datatype State = State(
    db: Db,
    lock: Option<Id>,
    sessions: map<Id, Session>,
    commits: seq<CommitRecord>)

  datatype Step =
    | Open(m: Id, kind: Kind, paths: seq<Path>)
    | Lock(m: Id)
    | Prepare(m: Id)
    | Inspect(m: Id)
    | Execute(m: Id, succeeds: bool)
    | Record(m: Id)
    | Commit(m: Id)
    | Abort(m: Id)

  function Init(): State {
    State(Db(None, []), None, map[], [])
  }

  /** The database as a session sees it: the committed state under its own pending writes. */
  function View(db: Db, session: Session): Db {
    var committed := if db.ledger.Some? then db.ledger.value else map[];
    Db(if db.ledger.Some? || session.created then Some(committed + session.inserted) else None,
       db.executed + session.ran)
  }

  function SetPc(s: State, m: Id, pc: Pc): State
    requires m in s.sessions
  {
    s.(sessions := s.sessions[m := s.sessions[m].(pc := pc)])
  }

  /** Ending a transaction releases the lock if the session holds it. */
  function End(s: State, m: Id, pc: Pc): State
    requires m in s.sessions
  {
    SetPc(s, m, pc).(lock := if s.lock == Some(m) then None else s.lock)
  }

  function DoOpen(s: State, m: Id, kind: Kind, paths: seq<Path>): State {
    if m in s.sessions then s
    else s.(sessions := s.sessions[m := Session(kind, paths, Waiting, false, map[], [])])
  }

  function DoLock(s: State, m: Id): State {
    if m in s.sessions && s.sessions[m].pc.Waiting? && s.lock.None? then SetPc(s, m, Locked).(lock := Some(m)) else s
  }

  /** A migrator creates the ledger if there is none; a verifier insists that there is one. */
  function DoPrepare(s: State, m: Id): State {
    if m !in s.sessions || !s.sessions[m].pc.Locked? then s
    else
      match s.sessions[m].kind
      case Migrator => s.(sessions := s.sessions[m := s.sessions[m].(pc := At(0), created := true)])
      case Verifier => if s.db.ledger.None? then End(s, m, Failed) else SetPc(s, m, At(0))
  }

  function DoInspect(digest: Digest, s: State, m: Id): State {
    if m !in s.sessions || !s.sessions[m].pc.At? || s.sessions[m].pc.i >= |s.sessions[m].paths| then s
    else
      var session := s.sessions[m];
      var i, path, ledger := session.pc.i, session.paths[session.pc.i], View(s.db, session).ledger;
      if path.filename.None? || path.content.None? || ledger.None? then End(s, m, Failed)
      else if path.filename.value in ledger.value then
        if ledger.value[path.filename.value] == digest(path.content.value) then SetPc(s, m, At(i + 1)) else End(s, m, Failed)
      else if session.kind.Verifier? then End(s, m, Failed)
      else SetPc(s, m, Missing(i))
  }

  predicate Readable(session: Session, i: nat) {
    i < |session.paths| && session.paths[i].filename.Some? && session.paths[i].content.Some?
  }

  function DoExecute(s: State, m: Id, succeeds: bool): State {
    if m !in s.sessions || !s.sessions[m].pc.Missing? || !Readable(s.sessions[m], s.sessions[m].pc.i) then s
    else
      var session := s.sessions[m];
      var path := session.paths[session.pc.i];
      if succeeds then
        s.(sessions := s.sessions[m := session.(pc := Ran(session.pc.i),
                                                ran := session.ran + [Script(path.filename.value, path.content.value)])])
      else End(s, m, Failed)
  }

  /** The ledger's primary key refuses a filename the session can already see in it. */
  function DoRecord(digest: Digest, s: State, m: Id): State {
    if m !in s.sessions || !s.sessions[m].pc.Ran? || !Readable(s.sessions[m], s.sessions[m].pc.i) then s
    else
      var session := s.sessions[m];
      var path, ledger := session.paths[session.pc.i], View(s.db, session).ledger;
      if ledger.None? || path.filename.value in ledger.value then End(s, m, Failed)
      else
        s.(sessions := s.sessions[m := session.(pc := At(session.pc.i + 1),
                                                inserted := session.inserted[path.filename.value := digest(path.content.value)])])
  }

  function DoCommit(s: State, m: Id): State {
    if m !in s.sessions || s.sessions[m].pc != At(|s.sessions[m].paths|) then s
    else
      match s.sessions[m].kind
      case Migrator =>
        End(s, m, Done).(db := View(s.db, s.sessions[m]), commits := s.commits + [CommitRecord(m, s.sessions[m].paths)])
      case Verifier => End(s, m, Done)
  }

  /** A failed statement, a lost connection or a refused commit, at any point. */
  function DoAbort(s: State, m: Id): State {
    if m in s.sessions && s.sessions[m].pc != Done then End(s, m, Failed) else s
  }

  function Do(digest: Digest, s: State, step: Step): State {
    match step
    case Open(m, kind, paths) => DoOpen(s, m, kind, paths)
    case Lock(m) => DoLock(s, m)
    case Prepare(m) => DoPrepare(s, m)
    case Inspect(m) => DoInspect(digest, s, m)
    case Execute(m, succeeds) => DoExecute(s, m, succeeds)
    case Record(m) => DoRecord(digest, s, m)
    case Commit(m) => DoCommit(s, m)
    case Abort(m) => DoAbort(s, m)
  }

  function DoAll(digest: Digest, s: State, steps: seq<Step>): State {
    if steps == [] then s else Do(digest, DoAll(digest, s, steps[..|steps| - 1]), steps[|steps| - 1])
  }

  // ----- what every interleaving keeps -----

  const Always: nat -> bool := _ => true

  /** The committed runs executed one after the other, each as a single action. */
  function Replay(digest: Digest, commits: seq<CommitRecord>): Result<Db> {
    if commits == [] then Ok(Db(None, []))
    else
      var before := Replay(digest, commits[..|commits| - 1]);
      if before.Err? then before else Migrate(digest, before.value, commits[|commits| - 1].paths, Always)
  }

  ghost predicate Active(pc: Pc) {
    !pc.Waiting? && !pc.Done? && !pc.Failed?
  }

  ghost predicate LockOk(s: State) {
    && (s.lock.Some? ==> s.lock.value in s.sessions && Active(s.sessions[s.lock.value].pc))
    && forall m :: m in s.sessions && Active(s.sessions[m].pc) ==> s.lock == Some(m)
  }

  ghost predicate Untouched(session: Session) {
    !session.created && session.inserted == map[] && session.ran == []
  }

  /** A migrator's view is what running its first `i` files in one go would give. */
  ghost predicate Progress(digest: Digest, db: Db, session: Session, i: nat) {
    && session.kind.Migrator? && session.created && i <= |session.paths|
    && ApplyAll(digest, WithLedger(db), session.paths[..i], Always) == Ok(View(db, session))
  }

  /** The file the session found missing from the ledger, and still does. */
  ghost predicate StillMissing(db: Db, session: Session, i: nat) {
    && Readable(session, i) && View(db, session).ledger.Some?
    && session.paths[i].filename.value !in View(db, session).ledger.value
  }

  /** The session before it ran its last script. */
  function BeforeRun(session: Session): Session {
    if session.ran == [] then session else session.(ran := session.ran[..|session.ran| - 1])
  }

  ghost predicate SessionOk(digest: Digest, db: Db, session: Session) {
    match session.pc
    case Waiting => Untouched(session)
    case Locked => Untouched(session)
    case At(i) =>
      && i <= |session.paths|
      && (session.kind.Migrator? ==> Progress(digest, db, session, i))
      && (session.kind.Verifier? ==> Verified(digest, db, session.paths[..i]))
      && (session.kind.Verifier? ==> Untouched(session))
    case Missing(i) => Progress(digest, db, session, i) && StillMissing(db, session, i)
    case Ran(i) =>
      && StillMissing(db, session, i)
      && Progress(digest, db, BeforeRun(session), i)
      && |session.ran| > 0
      && session.ran[|session.ran| - 1] == Script(session.paths[i].filename.value, session.paths[i].content.value)
    case Done => Verified(digest, db, session.paths)
    case Failed => true
  }

  ghost predicate SessionsOk(digest: Digest, s: State) {
    forall m :: m in s.sessions ==> SessionOk(digest, s.db, s.sessions[m])
  }

  ghost predicate CommitsOk(digest: Digest, s: State) {
    && Replay(digest, s.commits) == Ok(s.db)
    && (forall k :: 0 <= k < |s.commits| ==> CommitOk(s, s.commits[k]))
    && (forall j, k :: 0 <= j < k < |s.commits| ==> s.commits[j].session != s.commits[k].session)
  }

  ghost predicate CommitOk(s: State, c: CommitRecord) {
    && c.session in s.sessions
    && s.sessions[c.session].pc.Done? && s.sessions[c.session].kind.Migrator? && s.sessions[c.session].paths == c.paths
  }

  ghost predicate Inv(digest: Digest, s: State) {
    LockOk(s) && Consistent(digest, s.db) && SessionsOk(digest, s) && CommitsOk(digest, s)
  }

  /** A step that replaces one session and leaves the database alone. */
  lemma OneSessionChanges(digest: Digest, s: State, t: State, m: Id)
    requires Inv(digest, s) && LockOk(t)
    requires t.db == s.db && t.commits == s.commits
    requires m in t.sessions && t.sessions == s.sessions[m := t.sessions[m]]
    requires m in s.sessions ==> !s.sessions[m].pc.Done?
    requires SessionOk(digest, s.db, t.sessions[m])
    ensures Inv(digest, t)
  {
    forall n | n in t.sessions
      ensures SessionOk(digest, t.db, t.sessions[n])
    {
      assert n != m ==> n in s.sessions && SessionOk(digest, s.db, s.sessions[n]);
    }
    forall k | 0 <= k < |t.commits|
      ensures CommitOk(t, t.commits[k])
    {
      assert CommitOk(s, s.commits[k]);
    }
  }

  /** A session in its transaction takes a further step of its own. */
  lemma AdvanceKeepsInv(digest: Digest, s: State, m: Id, next: Session)
    requires Inv(digest, s) && m in s.sessions && Active(s.sessions[m].pc)
    requires Active(next.pc) && SessionOk(digest, s.db, next)
    ensures Inv(digest, s.(sessions := s.sessions[m := next]))
  {
    OneSessionChanges(digest, s, s.(sessions := s.sessions[m := next]), m);
  }

  lemma FailKeepsInv(digest: Digest, s: State, m: Id)
    requires Inv(digest, s) && m in s.sessions && !s.sessions[m].pc.Done?
    ensures Inv(digest, End(s, m, Failed))
  {
    OneSessionChanges(digest, s, End(s, m, Failed), m);
  }

  lemma StartsKeepInv(digest: Digest, s: State, m: Id, kind: Kind, paths: seq<Path>)
    requires Inv(digest, s)
    ensures Inv(digest, DoOpen(s, m, kind, paths)) && Inv(digest, DoLock(s, m)) && Inv(digest, DoAbort(s, m))
  {
    if m !in s.sessions {
      OneSessionChanges(digest, s, DoOpen(s, m, kind, paths), m);
    } else {
      assert SessionOk(digest, s.db, s.sessions[m]);
      if s.sessions[m].pc.Waiting? && s.lock.None? {
        OneSessionChanges(digest, s, DoLock(s, m), m);
      }
      if s.sessions[m].pc != Done {
        FailKeepsInv(digest, s, m);
      }
    }
  }

  lemma ViewWithoutWrites(db: Db, session: Session)
    requires session.inserted == map[] && session.ran == []
    ensures View(db, session) == if session.created then WithLedger(db) else db
  {
    assert db.executed + session.ran == db.executed;
    if db.ledger.Some? {
      assert db.ledger.value + session.inserted == db.ledger.value;
    }
  }

  lemma PrepareKeepsInv(digest: Digest, s: State, m: Id)
    requires Inv(digest, s)
    ensures Inv(digest, DoPrepare(s, m))
  {
    if m in s.sessions && s.sessions[m].pc.Locked? {
      var session := s.sessions[m];
      assert SessionOk(digest, s.db, session);
      assert session.paths[..0] == [];
      match session.kind {
        case Migrator =>
          var next := session.(pc := At(0), created := true);
          ViewWithoutWrites(s.db, next);
          assert Progress(digest, s.db, next, 0);
          AdvanceKeepsInv(digest, s, m, next);
        case Verifier =>
          if s.db.ledger.None? {
            FailKeepsInv(digest, s, m);
          } else {
            AdvanceKeepsInv(digest, s, m, session.(pc := At(0)));
          }
      }
    }
  }

  /** One more file that needs nothing done. */
  lemma InspectFindsRecorded(digest: Digest, db: Db, session: Session, i: nat)
    requires Readable(session, i) && View(db, session).ledger.Some?
    requires Recorded(digest, View(db, session), session.paths[i])
    requires session.pc == At(i) && SessionOk(digest, db, session)
    ensures SessionOk(digest, db, session.(pc := At(i + 1)))
  {
    var next := session.(pc := At(i + 1));
    assert session.paths[..i + 1][..i] == session.paths[..i];
    if session.kind.Migrator? {
      assert View(db, next) == View(db, session);
      assert Progress(digest, db, next, i + 1);
    } else {
      ViewWithoutWrites(db, session);
      var front, shorter := session.paths[..i + 1], session.paths[..i];
      forall k | 0 <= k < i + 1
        ensures Recorded(digest, db, front[k])
      {
        if k < i {
          assert Recorded(digest, db, shorter[k]);
        }
      }
    }
  }

  lemma InspectKeepsInv(digest: Digest, s: State, m: Id)
    requires Inv(digest, s)
    ensures Inv(digest, DoInspect(digest, s, m))
  {
    if m in s.sessions && s.sessions[m].pc.At? && s.sessions[m].pc.i < |s.sessions[m].paths| {
      var session, i := s.sessions[m], s.sessions[m].pc.i;
      assert SessionOk(digest, s.db, session);
      var path, ledger := session.paths[i], View(s.db, session).ledger;
      if path.filename.None? || path.content.None? || ledger.None? {
        FailKeepsInv(digest, s, m);
      } else if path.filename.value in ledger.value {
        if ledger.value[path.filename.value] == digest(path.content.value) {
          InspectFindsRecorded(digest, s.db, session, i);
          AdvanceKeepsInv(digest, s, m, session.(pc := At(i + 1)));
        } else {
          FailKeepsInv(digest, s, m);
        }
      } else if session.kind.Verifier? {
        FailKeepsInv(digest, s, m);
      } else {
        var next := session.(pc := Missing(i));
        assert View(s.db, next) == View(s.db, session);
        AdvanceKeepsInv(digest, s, m, next);
      }
    }
  }

  lemma ExecuteKeepsInv(digest: Digest, s: State, m: Id, succeeds: bool)
    requires Inv(digest, s)
    ensures Inv(digest, DoExecute(s, m, succeeds))
  {
    if m in s.sessions && s.sessions[m].pc.Missing? && Readable(s.sessions[m], s.sessions[m].pc.i) {
      var session := s.sessions[m];
      assert SessionOk(digest, s.db, session);
      var t := DoExecute(s, m, succeeds);
      if succeeds {
        var next := t.sessions[m];
        assert next.ran[..|next.ran| - 1] == session.ran;
        assert View(s.db, BeforeRun(next)) == View(s.db, session);
        assert Progress(digest, s.db, BeforeRun(next), session.pc.i);
      }
      OneSessionChanges(digest, s, t, m);
    }
  }

  lemma RecordAdvances(digest: Digest, db: Db, session: Session, next: Session, i: nat)
    requires session.pc == Ran(i) && SessionOk(digest, db, session)
    requires next == session.(pc := At(i + 1),
                              inserted := session.inserted[session.paths[i].filename.value := digest(session.paths[i].content.value)])
    ensures Progress(digest, db, next, i + 1)
  {
    var before, path := BeforeRun(session), session.paths[i];
    assert session.paths[..i + 1][..i] == session.paths[..i];
    assert before.ran + [Script(path.filename.value, path.content.value)] == session.ran;
    assert View(db, before).executed + [Script(path.filename.value, path.content.value)] == View(db, next).executed;
    assert View(db, before).ledger == View(db, session).ledger;
    assert View(db, before).ledger.value[path.filename.value := digest(path.content.value)] == View(db, next).ledger.value;
  }

  lemma RecordKeepsInv(digest: Digest, s: State, m: Id)
    requires Inv(digest, s)
    ensures Inv(digest, DoRecord(digest, s, m))
  {
    if m in s.sessions && s.sessions[m].pc.Ran? && Readable(s.sessions[m], s.sessions[m].pc.i) {
      var session := s.sessions[m];
      assert SessionOk(digest, s.db, session);
      var t := DoRecord(digest, s, m);
      RecordAdvances(digest, s.db, session, t.sessions[m], session.pc.i);
      OneSessionChanges(digest, s, t, m);
    }
  }

  /** The commit of the lock holder is the whole run done at once on the committed state. */
  lemma CommitIsOneRun(digest: Digest, s: State, m: Id)
    requires Inv(digest, s) && m in s.sessions
    requires s.sessions[m].pc == At(|s.sessions[m].paths|) && s.sessions[m].kind.Migrator?
    ensures Migrate(digest, s.db, s.sessions[m].paths, Always) == Ok(DoCommit(s, m).db)
    ensures Replay(digest, DoCommit(s, m).commits) == Ok(DoCommit(s, m).db)
  {
    var session, t := s.sessions[m], DoCommit(s, m);
    assert SessionOk(digest, s.db, session);
    assert session.paths[..|session.paths|] == session.paths;
    assert t.commits[..|t.commits| - 1] == s.commits;
  }

  lemma CommitKeepsInv(digest: Digest, s: State, m: Id)
    requires Inv(digest, s)
    ensures Inv(digest, DoCommit(s, m))
    ensures Extends(DoCommit(s, m).db, s.db)
  {
    if m in s.sessions && s.sessions[m].pc == At(|s.sessions[m].paths|) {
      var session, t := s.sessions[m], DoCommit(s, m);
      assert SessionOk(digest, s.db, session);
      assert s.lock == Some(m);
      if session.kind.Migrator? {
        CommitIsOneRun(digest, s, m);
        MigrateEstablishesVerified(digest, s.db, session.paths, Always);
        CommitKeepsOthers(digest, s, m);
      } else {
        assert session.paths[..|session.paths|] == session.paths;
        OneSessionChanges(digest, s, t, m);
      }
    }
  }

  lemma CommitKeepsOthers(digest: Digest, s: State, m: Id)
    requires Inv(digest, s) && m in s.sessions
    requires s.sessions[m].pc == At(|s.sessions[m].paths|) && s.sessions[m].kind.Migrator?
    requires Extends(DoCommit(s, m).db, s.db) && Verified(digest, DoCommit(s, m).db, s.sessions[m].paths)
    ensures SessionsOk(digest, DoCommit(s, m))
    ensures var t := DoCommit(s, m);
            && (forall k :: 0 <= k < |t.commits| ==> CommitOk(t, t.commits[k]))
            && (forall j, k :: 0 <= j < k < |t.commits| ==> t.commits[j].session != t.commits[k].session)
  {
    var t := DoCommit(s, m);
    forall n | n in t.sessions
      ensures SessionOk(digest, t.db, t.sessions[n])
    {
      if n != m {
        assert SessionOk(digest, s.db, s.sessions[n]) && !Active(s.sessions[n].pc);
        if s.sessions[n].pc.Done? {
          ExtensionKeepsVerified(digest, s.db, t.db, s.sessions[n].paths);
        }
      }
    }
    forall k | 0 <= k < |t.commits|
      ensures CommitOk(t, t.commits[k]) && (k < |s.commits| ==> t.commits[k].session != m)
    {
      if k < |s.commits| {
        assert CommitOk(s, s.commits[k]);
      }
    }
  }

  lemma StepKeepsInv(digest: Digest, s: State, step: Step)
    requires Inv(digest, s)
    ensures Inv(digest, Do(digest, s, step))
  {
    match step {
      case Open(m, kind, paths) => StartsKeepInv(digest, s, m, kind, paths);
      case Lock(m) => StartsKeepInv(digest, s, m, Migrator, []);
      case Prepare(m) => PrepareKeepsInv(digest, s, m);
      case Inspect(m) => InspectKeepsInv(digest, s, m);
      case Execute(m, succeeds) => ExecuteKeepsInv(digest, s, m, succeeds);
      case Record(m) => RecordKeepsInv(digest, s, m);
      case Commit(m) => CommitKeepsInv(digest, s, m);
      case Abort(m) => StartsKeepInv(digest, s, m, Migrator, []);
    }
  }

  /** Only a commit writes to the database. */
  lemma StepExtends(digest: Digest, s: State, step: Step)
    requires Inv(digest, s)
    ensures Extends(Do(digest, s, step).db, s.db)
    ensures !step.Commit? ==> Do(digest, s, step).db == s.db
  {
    if step.Commit? {
      CommitKeepsInv(digest, s, step.m);
    } else {
      assert Do(digest, s, step).db == s.db;
    }
  }

  lemma {:induction false} RunKeepsInv(digest: Digest, s: State, steps: seq<Step>)
    requires Inv(digest, s)
    ensures Inv(digest, DoAll(digest, s, steps)) && Extends(DoAll(digest, s, steps).db, s.db)
  {
    if steps != [] {
      RunKeepsInv(digest, s, steps[..|steps| - 1]);
      StepKeepsInv(digest, DoAll(digest, s, steps[..|steps| - 1]), steps[|steps| - 1]);
      StepExtends(digest, DoAll(digest, s, steps[..|steps| - 1]), steps[|steps| - 1]);
    }
  }

  // ----- the guarantees -----

  function After(digest: Digest, steps: seq<Step>): State {
    DoAll(digest, Init(), steps)
  }

  lemma Reachable(digest: Digest, steps: seq<Step>)
    ensures Inv(digest, After(digest, steps))
  {
    RunKeepsInv(digest, Init(), steps);
  }

  /**
    However the sessions interleave, no filename is executed twice, and the ledger lists
    exactly the executed files with the digests of what was executed.
   */
  lemma EachFileExecutedOnce(digest: Digest, steps: seq<Step>, i: nat, j: nat, name: string)
    ensures var db := After(digest, steps).db;
            && (i < j < |db.executed| ==> db.executed[i].filename != db.executed[j].filename)
            && (db.ledger.Some? ==> (name in db.ledger.value <==> Executed(db, name)))
            && (i < |db.executed| ==> db.ledger.Some? && db.executed[i].filename in db.ledger.value
                                      && db.ledger.value[db.executed[i].filename] == digest(db.executed[i].sql))
  {
    Reachable(digest, steps);
    var db := After(digest, steps).db;
    if i < |db.executed| {
      assert Recorded(digest, db, Path(Some(db.executed[i].filename), Some(db.executed[i].sql)));
    }
    if db.ledger.Some? && Executed(db, name) {
      var k :| 0 <= k < |db.executed| && db.executed[k].filename == name;
      assert Recorded(digest, db, Path(Some(db.executed[k].filename), Some(db.executed[k].sql)));
    }
  }

  /** What is recorded stays recorded, unchanged, whatever happens next. */
  lemma LedgerOnlyGrows(digest: Digest, steps: seq<Step>, more: seq<Step>)
    ensures Extends(DoAll(digest, After(digest, steps), more).db, After(digest, steps).db)
  {
    Reachable(digest, steps);
    RunKeepsInv(digest, After(digest, steps), more);
  }

  /**
    Interleaved sessions have the effect of the committed runs alone, one after the
    other: a session that failed, at whatever point, is not among them.
   */
  lemma InterleavingIsSequential(digest: Digest, steps: seq<Step>, k: nat)
    ensures var s := After(digest, steps);
            && Replay(digest, s.commits) == Ok(s.db)
            && (k < |s.commits| ==> s.commits[k].session in s.sessions && s.sessions[s.commits[k].session].pc == Done)
  {
    Reachable(digest, steps);
    var s := After(digest, steps);
    if k < |s.commits| {
      assert CommitOk(s, s.commits[k]);
    }
  }

  /** Once a migrator or a verifier has finished, its files verify in every later state. */
  lemma FinishedStaysVerified(digest: Digest, steps: seq<Step>, more: seq<Step>, m: Id)
    requires m in After(digest, steps).sessions && After(digest, steps).sessions[m].pc == Done
    ensures Verified(digest, DoAll(digest, After(digest, steps), more).db, After(digest, steps).sessions[m].paths)
  {
    Reachable(digest, steps);
    LedgerOnlyGrows(digest, steps, more);
    var s := After(digest, steps);
    assert SessionOk(digest, s.db, s.sessions[m]);
    ExtensionKeepsVerified(digest, s.db, DoAll(digest, s, more).db, s.sessions[m].paths);
  }

  /** A session whose files were all verified before it took the lock. */
  ghost predicate Quiet(digest: Digest, s: State, m: Id, paths: seq<Path>) {
    && m in s.sessions && s.sessions[m].paths == paths && Verified(digest, s.db, paths)
    && s.sessions[m].ran == [] && s.sessions[m].inserted == map[]
    && !s.sessions[m].pc.Missing? && !s.sessions[m].pc.Ran?
  }

  lemma OthersLeaveSession(digest: Digest, s: State, step: Step, m: Id)
    requires m in s.sessions && step.m != m
    ensures m in Do(digest, s, step).sessions && Do(digest, s, step).sessions[m] == s.sessions[m]
  {
  }

  lemma InspectionFindsNothingToDo(digest: Digest, s: State, m: Id, paths: seq<Path>)
    requires Quiet(digest, s, m, paths)
    ensures Quiet(digest, DoInspect(digest, s, m), m, paths)
  {
    var session := s.sessions[m];
    if session.pc.At? && session.pc.i < |paths| {
      ViewWithoutWrites(s.db, session);
      assert Recorded(digest, s.db, paths[session.pc.i]);
    }
  }

  lemma StepKeepsQuiet(digest: Digest, s: State, step: Step, m: Id, paths: seq<Path>)
    requires Inv(digest, s) && Quiet(digest, s, m, paths)
    ensures Quiet(digest, Do(digest, s, step), m, paths)
  {
    StepExtends(digest, s, step);
    ExtensionKeepsVerified(digest, s.db, Do(digest, s, step).db, paths);
    if step.m != m {
      OthersLeaveSession(digest, s, step, m);
    } else if step.Inspect? {
      InspectionFindsNothingToDo(digest, s, m, paths);
    } else {
      OwnStepStaysQuiet(digest, s, step, m);
    }
  }

  lemma OwnStepStaysQuiet(digest: Digest, s: State, step: Step, m: Id)
    requires m in s.sessions && step.m == m && !step.Inspect?
    requires !s.sessions[m].pc.Missing? && !s.sessions[m].pc.Ran?
    ensures var t := Do(digest, s, step);
            && m in t.sessions && t.sessions[m].paths == s.sessions[m].paths
            && t.sessions[m].ran == s.sessions[m].ran && t.sessions[m].inserted == s.sessions[m].inserted
            && !t.sessions[m].pc.Missing? && !t.sessions[m].pc.Ran?
  {
  }

  /**
    After verification has accepted some files, a migrator that starts on them executes
    nothing, even if others migrate the database in between.
   */
  lemma {:induction false} VerifiedFilesAreNotRunAgain(digest: Digest, steps: seq<Step>, more: seq<Step>, m: Id)
    requires m in After(digest, steps).sessions && After(digest, steps).sessions[m].pc == Waiting
    requires Verified(digest, After(digest, steps).db, After(digest, steps).sessions[m].paths)
    ensures Quiet(digest, DoAll(digest, After(digest, steps), more), m, After(digest, steps).sessions[m].paths)
    decreases |more|
  {
    Reachable(digest, steps);
    var s := After(digest, steps);
    if more == [] {
      assert SessionOk(digest, s.db, s.sessions[m]);
    } else {
      VerifiedFilesAreNotRunAgain(digest, steps, more[..|more| - 1], m);
      RunKeepsInv(digest, s, more[..|more| - 1]);
      StepKeepsQuiet(digest, DoAll(digest, s, more[..|more| - 1]), more[|more| - 1], m, s.sessions[m].paths);
    }
  }
}
