/** Due runs that promote, reject or hold pending agent releases. */
module ReleaseAutomation {
  import opened Wrappers
  import opened Json
  import opened Sequences
  import opened Text

  type Id = nat

  datatype Status =
    | PendingApproval | InProgress | PromotionFailed | Promoted | Rejected | RolledBack | Superseded | OtherStatus(name: string)

  datatype Release = Release(
    id: Id,
    agent: Id,
    version: Id,
    environment: string,
    status: Status,
    evalScore: Option<real>,
    minScore: real,
    requestedBy: Option<string>,
    requestedAt: Option<int>,
    approverSubject: Option<string>,
    decisionBy: Option<string>,
    promotedAt: Option<int>,
    policy: Json)

  const SYSTEM: string := "system"

  predicate PendingStatus(status: Status) {
    status == PendingApproval || status == InProgress || status == PromotionFailed
  }

  // ----- the due decision -----

  /** Reads a date and time out of a text, if it is one. */
  type ParseTime = string -> Option<int>

  datatype Reason =
    | DelegatedHumanApprover | AutoApproveDisabled | ActivationWindowNotOpen | ScoreBelowMinimum
    | ControllerRequired | ControllerNotPromoted | ControllerCallFailed

  datatype Decision = Promote | Skip(reason: Reason)

  function PolicyTime(parse: ParseTime, r: Release, field: string): Option<int> {
    match AsStr(Get(r.policy, field))
    case None => None
    case Some(text) => parse(text)
  }

  predicate AutoApproved(r: Release) {
    AsBool(Get(r.policy, "auto_approve")) == Some(true)
  }

  predicate DelegatedToHuman(r: Release) {
    r.approverSubject.Some? && !Blank(r.approverSubject.value) && Trim(r.approverSubject.value) != SYSTEM
  }

  function DueDecision(parse: ParseTime, r: Release, now: int): Decision {
    var activateAfter := PolicyTime(parse, r, "activate_after");
    var score := if r.evalScore.Some? then r.evalScore.value else 0.0;
    if DelegatedToHuman(r) then Skip(DelegatedHumanApprover)
    else if !AutoApproved(r) then Skip(AutoApproveDisabled)
    else if activateAfter.Some? && now < activateAfter.value then Skip(ActivationWindowNotOpen)
    else if score < r.minScore then Skip(ScoreBelowMinimum)
    else Promote
  }

  /** A release is due when no human is asked, its policy approves it, its window is open and its score suffices. */
  lemma DueIff(parse: ParseTime, r: Release, now: int)
    ensures DueDecision(parse, r, now) == Promote <==>
              && (r.approverSubject.None? || Blank(r.approverSubject.value) || Trim(r.approverSubject.value) == SYSTEM)
              && AutoApproved(r)
              && (PolicyTime(parse, r, "activate_after").Some? ==> PolicyTime(parse, r, "activate_after").value <= now)
              && r.minScore <= (if r.evalScore.Some? then r.evalScore.value else 0.0)
  {
  }

  predicate IsExpired(parse: ParseTime, r: Release, now: int) {
    var expiresAt := PolicyTime(parse, r, "expires_at");
    expiresAt.Some? && now > expiresAt.value
  }

  // ----- the store -----

  /** Who may decide: not the requester, and no one but the delegated approver, compared as written. */
  predicate SystemMayDecide(r: Release) {
    r.requestedBy != Some(SYSTEM) && (r.approverSubject.None? || r.approverSubject.value == SYSTEM)
  }

  /** A promotion may be begun, or taken up again by the one who began it. */
  predicate CanBegin(r: Release) {
    PendingStatus(r.status) && SystemMayDecide(r) && (r.status == InProgress ==> r.decisionBy == Some(SYSTEM))
  }

  function Begun(r: Release): Release {
    if r.status == InProgress then r
    else r.(status := InProgress, decisionBy := Some(SYSTEM), promotedAt := None)
  }

  predicate SameTarget(a: Release, b: Release) {
    a.agent == b.agent && a.version == b.version && Lower(a.environment) == Lower(b.environment)
  }

  /** Completing a promotion supersedes whatever was promoted for the same target. */
  function Complete(store: map<Id, Release>, id: Id, at: int): map<Id, Release>
    requires id in store
  {
    map k | k in store ::
      if k == id then store[id].(status := Promoted, promotedAt := Some(at))
      else if store[k].status == Promoted && SameTarget(store[k], store[id]) then store[k].(status := Superseded)
      else store[k]
  }

  // ----- one release's turn -----

  datatype Answer = Confirmed | NotConfirmed | CallFailed

  /** What a run meets: the moment, the configuration, the controller, and which agents exist. */
  datatype Surroundings = Surroundings(
    now: int,
    parse: ParseTime,
    required: bool,
    configured: bool,
    answers: Id -> Answer,
    agentExists: Id -> bool,
    promotedAt: Id -> int)

  datatype Turn = Expire | Advance | Hold(reason: Reason) | ControllerFailed(reason: Reason) | Abort

  function TurnFor(around: Surroundings, r: Release): Turn {
    if r.status != InProgress && IsExpired(around.parse, r, around.now) then
      if around.agentExists(r.agent) then Expire else Abort
    else
      match DueDecision(around.parse, r, around.now)
      case Skip(reason) => Hold(reason)
      case Promote =>
        if around.required && !around.configured then Hold(ControllerRequired)
        else if !around.agentExists(r.agent) || !CanBegin(r) then Abort
        else if !around.configured then Advance
        else
          match around.answers(r.id)
          case Confirmed => Advance
          case NotConfirmed => ControllerFailed(ControllerNotPromoted)
          case CallFailed => ControllerFailed(ControllerCallFailed)
  }

  function Apply(promotedAt: Id -> int, store: map<Id, Release>, r: Release, turn: Turn): map<Id, Release>
    requires r.id in store
  {
    match turn
    case Expire => store[r.id := r.(status := Rejected, decisionBy := Some(SYSTEM))]
    case Advance => Complete(store[r.id := Begun(r)], r.id, promotedAt(r.id))
    case ControllerFailed(_) => store[r.id := Begun(r).(status := PromotionFailed, promotedAt := None)]
    case Hold(_) => store
    case Abort => store
  }

  /**
    What a promotion rests on: no human is asked, the policy approves, the window is open,
    the score suffices, the time is not up, a controller that is required is there and one
    that is there confirmed, and the store lets the promotion begin.
   */
  predicate Justified(around: Surroundings, r: Release) {
    var activateAfter := PolicyTime(around.parse, r, "activate_after");
    && (r.approverSubject.None? || Blank(r.approverSubject.value) || Trim(r.approverSubject.value) == SYSTEM)
    && AutoApproved(r)
    && (activateAfter.Some? ==> activateAfter.value <= around.now)
    && r.minScore <= (if r.evalScore.Some? then r.evalScore.value else 0.0)
    && (r.status != InProgress ==> !IsExpired(around.parse, r, around.now))
    && (around.required ==> around.configured)
    && (around.configured ==> around.answers(r.id) == Confirmed)
    && around.agentExists(r.agent) && CanBegin(r)
  }

  lemma AdvancesIff(around: Surroundings, r: Release)
    ensures TurnFor(around, r).Advance? <==> Justified(around, r)
  {
    DueIff(around.parse, r, around.now);
  }

  /**
    A release that is due is refused at the start of its promotion, which ends the whole
    run, exactly when it is the system's own request, is held by another approver, or
    names the system as approver in any other spelling.  The handler that takes requests
    trims the name and drops a blank one, so the last case needs a row written otherwise.
   */
  lemma DueButRefusedIff(around: Surroundings, r: Release)
    requires DueDecision(around.parse, r, around.now) == Promote && PendingStatus(r.status)
    requires around.agentExists(r.agent) && (around.required ==> around.configured)
    requires r.status != InProgress ==> !IsExpired(around.parse, r, around.now)
    ensures TurnFor(around, r) == Abort <==>
              || r.requestedBy == Some(SYSTEM)
              || (r.status == InProgress && r.decisionBy != Some(SYSTEM))
              || (r.approverSubject.Some? && r.approverSubject.value != SYSTEM)
    ensures TurnFor(around, r) == Abort && r.approverSubject.Some? && r.approverSubject.value != SYSTEM ==>
              Blank(r.approverSubject.value) || Trim(r.approverSubject.value) == SYSTEM
  {
  }

  /** A promotion that someone else has begun, of a release that no human was asked to approve. */
  const HELD := Release(0, 0, 0, "prod", InProgress, None, 0.0, Some("ann"), Some(0), None, Some("bob"), None,
                        Obj(map["auto_approve" := Bool(true)]))

  /** A release the system itself asked for. */
  const OWN := HELD.(status := PendingApproval, requestedBy := Some(SYSTEM), decisionBy := None)

  /** Each of them is due, and ends any run that comes to it without a report. */
  lemma HeldOrOwnEndsTheRun(around: Surroundings, r: Release, listed: seq<Release>)
    requires r == HELD || r == OWN
    requires around.agentExists(r.agent) && (around.required ==> around.configured) && r in listed
    ensures DueDecision(around.parse, r, around.now) == Promote && TurnFor(around, r) == Abort
    ensures !forall i :: 0 <= i < |listed| ==> Runs(ScriptOf(around), listed[i])
  {
    assert Get(r.policy, "auto_approve") == Some(Bool(true));
    NoTimesInPolicy(around.parse, r);
    assert |"bob"| == 3 && |"ann"| == 3 && |SYSTEM| == 6;
    var i :| 0 <= i < |listed| && listed[i] == r;
    assert !Runs(ScriptOf(around), listed[i]);
  }

  lemma NoTimesInPolicy(parse: ParseTime, r: Release)
    requires r.policy == HELD.policy
    ensures PolicyTime(parse, r, "activate_after").None? && PolicyTime(parse, r, "expires_at").None?
  {
    assert |"auto_approve"| == 12 && |"activate_after"| == 14 && |"expires_at"| == 10;
  }

  // ----- the run -----

  datatype Entry = Entry(id: Id, turn: Turn)

  datatype Report = Report(
    pending: nat,
    promoted: nat,
    rejected: nat,
    skipped: nat,
    controllerExecutions: nat,
    controllerFailed: nat,
    results: seq<Entry>)

  /** Each listed release is pending, listed once, and listed as it is stored. */
  ghost predicate ListedAsStored(store: map<Id, Release>, listed: seq<Release>) {
    && (forall i :: 0 <= i < |listed| ==> StoredPending(store, listed[i]))
    && (forall i, j :: 0 <= i < j < |listed| ==> listed[i].id != listed[j].id)
  }

  predicate StoredPending(store: map<Id, Release>, r: Release) {
    r.id in store && store[r.id] == r && PendingStatus(r.status)
  }

  /** The store lists each pending release once, as it is, and leaves none out. */
  ghost predicate ListsPending(store: map<Id, Release>, listed: seq<Release>) {
    && ListedAsStored(store, listed)
    && (forall id :: id in store && PendingStatus(store[id].status) ==> store[id] in listed)
    && (forall id :: id in store ==> store[id].id == id)
  }

  /** The turn each release gets, and when its promotion is stamped. */
  datatype Script = Script(turnOf: Release -> Turn, promotedAt: Id -> int)

  function ScriptOf(around: Surroundings): Script {
    Script(r => TurnFor(around, r), around.promotedAt)
  }

  /** The store after the first `n` turns. */
  function After(script: Script, store: map<Id, Release>, listed: seq<Release>, n: nat): (r: map<Id, Release>)
    requires n <= |listed| && forall i :: 0 <= i < |listed| ==> listed[i].id in store
    ensures r.Keys == store.Keys
  {
    if n == 0 then store
    else Apply(script.promotedAt, After(script, store, listed, n - 1), listed[n - 1], script.turnOf(listed[n - 1]))
  }

  /** A run that was cut short is where the turns before the first refused one led. */
  ghost predicate EndedAt(script: Script, store: map<Id, Release>, listed: seq<Release>, later: map<Id, Release>) {
    ListedAsStored(store, listed) &&
    exists k: nat :: k < |listed| && !Runs(script, listed[k]) && (forall j :: 0 <= j < k ==> Runs(script, listed[j]))
                     && later == After(script, store, listed, k)
  }

  lemma EndsHere(script: Script, store: map<Id, Release>, listed: seq<Release>, k: nat)
    requires ListedAsStored(store, listed) && k < |listed| && script.turnOf(listed[k]) == Abort
    requires forall j :: 0 <= j < k ==> Runs(script, listed[j])
    ensures !Runs(script, listed[k])
    ensures EndedAt(script, store, listed, After(script, store, listed, k))
    ensures After(script, store, listed, k + 1) == After(script, store, listed, k)
  {
  }

  /** Until its turn a listed release stays as it was listed. */
  lemma {:induction false} LaterReleasesWait(script: Script, store: map<Id, Release>, listed: seq<Release>, n: nat, k: nat)
    requires ListedAsStored(store, listed) && n <= k < |listed|
    ensures After(script, store, listed, n)[listed[k].id] == listed[k]
  {
    if n > 0 {
      LaterReleasesWait(script, store, listed, n - 1, k);
    }
  }

  predicate Runs(script: Script, r: Release) {
    script.turnOf(r) != Abort
  }

  function Count(script: Script, listed: seq<Release>, wanted: Turn -> bool): nat {
    |Filter(r => wanted(script.turnOf(r)), listed)|
  }

  lemma CountGrows(script: Script, listed: seq<Release>, n: nat, wanted: Turn -> bool)
    requires n < |listed|
    ensures Count(script, listed[..n + 1], wanted)
         == Count(script, listed[..n], wanted) + if wanted(script.turnOf(listed[n])) then 1 else 0
  {
    assert listed[..n + 1] == listed[..n] + [listed[n]];
    FilterAppends(r => wanted(script.turnOf(r)), listed[..n], [listed[n]]);
  }

  const IsAdvance: Turn -> bool := (t: Turn) => t.Advance?
  const IsExpire: Turn -> bool := (t: Turn) => t.Expire?
  const IsHeld: Turn -> bool := (t: Turn) => t.Hold? || t.ControllerFailed?
  const IsControllerFailed: Turn -> bool := (t: Turn) => t.ControllerFailed?

  ghost predicate Follows(script: Script, around: Surroundings) {
    && script.promotedAt == around.promotedAt
    && forall r: Release {:trigger TurnFor(around, r)} :: script.turnOf(r) == TurnFor(around, r)
  }

  /** How the loop counts one turn. */
  function AddTurn(configured: bool, c: Report, id: Id, turn: Turn): Report {
    var c := c.(results := c.results + [Entry(id, turn)]);
    match turn
    case Expire => c.(rejected := c.rejected + 1)
    case Advance => c.(promoted := c.promoted + 1, controllerExecutions := c.controllerExecutions + if configured then 1 else 0)
    case ControllerFailed(_) =>
      c.(skipped := c.skipped + 1, controllerFailed := c.controllerFailed + 1,
         controllerExecutions := c.controllerExecutions + if configured then 1 else 0)
    case Hold(_) => c.(skipped := c.skipped + 1)
    case Abort => c
  }

  /** The report's counts are the numbers of turns of each kind, and its results are the turns in order. */
  ghost predicate Reports(script: Script, configured: bool, listed: seq<Release>, c: Report) {
    && c.pending == |listed|
    && c.promoted == Count(script, listed, IsAdvance) && c.rejected == Count(script, listed, IsExpire)
    && c.skipped == Count(script, listed, IsHeld) && c.controllerFailed == Count(script, listed, IsControllerFailed)
    && c.controllerExecutions == (if configured then c.promoted + c.controllerFailed else 0)
    && c.results == Map((r: Release) => Entry(r.id, script.turnOf(r)), listed)
  }

  ghost predicate ReportsFirst(script: Script, configured: bool, listed: seq<Release>, n: nat, c: Report)
    requires n <= |listed|
  {
    c.pending == |listed| && Reports(script, configured, listed[..n], c.(pending := n))
  }

  lemma ReportGrows(script: Script, configured: bool, listed: seq<Release>, n: nat, c: Report)
    requires n < |listed| && ReportsFirst(script, configured, listed, n, c)
    requires Runs(script, listed[n]) && (script.turnOf(listed[n]).ControllerFailed? ==> configured)
    ensures ReportsFirst(script, configured, listed, n + 1, AddTurn(configured, c, listed[n].id, script.turnOf(listed[n])))
  {
    CountGrows(script, listed, n, IsAdvance);
    CountGrows(script, listed, n, IsExpire);
    CountGrows(script, listed, n, IsHeld);
    CountGrows(script, listed, n, IsControllerFailed);
    assert listed[..n + 1] == listed[..n] + [listed[n]];
  }

  /** The report of the first `n` turns. */
  function ReportOf(script: Script, configured: bool, listed: seq<Release>, n: nat): Report
    requires n <= |listed|
  {
    if n == 0 then Report(|listed|, 0, 0, 0, 0, 0, [])
    else AddTurn(configured, ReportOf(script, configured, listed, n - 1), listed[n - 1].id, script.turnOf(listed[n - 1]))
  }

  lemma {:induction false} ReportCounts(script: Script, configured: bool, listed: seq<Release>, n: nat)
    requires n <= |listed|
    requires forall k :: 0 <= k < |listed| ==>
               Runs(script, listed[k]) && (script.turnOf(listed[k]).ControllerFailed? ==> configured)
    ensures ReportsFirst(script, configured, listed, n, ReportOf(script, configured, listed, n))
  {
    if n > 0 {
      ReportCounts(script, configured, listed, n - 1);
      ReportGrows(script, configured, listed, n - 1, ReportOf(script, configured, listed, n - 1));
    }
  }

  class ReleaseStore {
    var releases: map<Id, Release>

    method StoreReject(around: Surroundings, id: Id) returns (ok: bool)
      requires id in releases
      modifies this
      ensures ok <==> around.agentExists(old(releases)[id].agent) && old(releases)[id].status in {PendingApproval, PromotionFailed}
      ensures releases == if ok then old(releases)[id := old(releases)[id].(status := Rejected, decisionBy := Some(SYSTEM))]
                          else old(releases)
    {
      var r := releases[id];
      if !around.agentExists(r.agent) || (r.status != PendingApproval && r.status != PromotionFailed) {
        return false;
      }
      releases := releases[id := r.(status := Rejected, decisionBy := Some(SYSTEM))];
      return true;
    }

    method StoreBegin(around: Surroundings, id: Id) returns (ok: bool)
      requires id in releases
      modifies this
      ensures ok <==> around.agentExists(old(releases)[id].agent) && CanBegin(old(releases)[id])
      ensures releases == if ok then old(releases)[id := Begun(old(releases)[id])] else old(releases)
    {
      var r := releases[id];
      if !around.agentExists(r.agent) || !SystemMayDecide(r) {
        return false;
      }
      if r.status == InProgress {
        return r.decisionBy == Some(SYSTEM);
      }
      if r.status != PendingApproval && r.status != PromotionFailed {
        return false;
      }
      releases := releases[id := r.(status := InProgress, decisionBy := Some(SYSTEM), promotedAt := None)];
      return true;
    }

    method StoreFail(id: Id)
      requires id in releases && releases[id].status == InProgress && releases[id].decisionBy == Some(SYSTEM)
      modifies this
      ensures releases == old(releases)[id := old(releases)[id].(status := PromotionFailed, promotedAt := None)]
    {
      releases := releases[id := releases[id].(status := PromotionFailed, promotedAt := None)];
    }

    /** The sibling loop, then the release itself. */
    method StoreComplete(id: Id, at: int)
      requires id in releases && releases[id].status == InProgress && releases[id].decisionBy == Some(SYSTEM)
      modifies this
      ensures releases == Complete(old(releases), id, at)
    {
      ghost var before := releases;
      var left := releases.Keys;
      while left != {}
        invariant left <= before.Keys && releases.Keys == before.Keys
        invariant forall k :: k in before ==>
                    releases[k] == if k !in left && k != id then Complete(before, id, at)[k] else before[k]
      {
        var k :| k in left;
        left := left - {k};
        var sibling := releases[k];
        if k != id && SameTarget(sibling, releases[id]) && sibling.status == Promoted {
          releases := releases[k := sibling.(status := Superseded)];
        }
      }
      releases := releases[id := releases[id].(status := Promoted, promotedAt := Some(at))];
    }

    /** One listed release's turn. */
    method TakeTurn(around: Surroundings, r: Release) returns (turn: Turn)
      requires r.id in releases && releases[r.id] == r && PendingStatus(r.status)
      modifies this
      ensures turn == TurnFor(around, r) && releases == Apply(around.promotedAt, old(releases), r, turn)
    {
      if r.status != InProgress && IsExpired(around.parse, r, around.now) {
        var rejected := StoreReject(around, r.id);
        return if rejected then Expire else Abort;
      }
      var decision := DueDecision(around.parse, r, around.now);
      if decision.Skip? {
        return Hold(decision.reason);
      }
      if around.required && !around.configured {
        return Hold(ControllerRequired);
      }
      var begun := StoreBegin(around, r.id);
      if !begun {
        return Abort;
      }
      if around.configured {
        var answer := around.answers(r.id);
        if answer != Confirmed {
          StoreFail(r.id);
          return ControllerFailed(if answer == NotConfirmed then ControllerNotPromoted else ControllerCallFailed);
        }
      }
      StoreComplete(r.id, around.promotedAt(r.id));
      return Advance;
    }

    /** The next turn of a run that follows a script. */
    method FollowScript(around: Surroundings, listed: seq<Release>, i: nat, ghost script: Script, ghost store: map<Id, Release>)
      returns (turn: Turn)
      requires ListedAsStored(store, listed) && i < |listed| && Follows(script, around)
      requires releases == After(script, store, listed, i)
      modifies this
      ensures turn == script.turnOf(listed[i]) && releases == After(script, store, listed, i + 1)
      ensures turn.ControllerFailed? ==> around.configured
    {
      LaterReleasesWait(script, store, listed, i, i);
      assert StoredPending(store, listed[i]);
      assert script.turnOf(listed[i]) == TurnFor(around, listed[i]);
      turn := TakeTurn(around, listed[i]);
    }

    /** The loop over the listed releases; a refused store call ends it. */
    method TakeTurns(around: Surroundings, listed: seq<Release>, ghost script: Script) returns (report: Option<Report>)
      requires ListedAsStored(releases, listed) && Follows(script, around)
      modifies this
      ensures report.Some? <==> forall i :: 0 <= i < |listed| ==> Runs(script, listed[i])
      ensures report.Some? ==> releases == After(script, old(releases), listed, |listed|)
      ensures report.None? ==> EndedAt(script, old(releases), listed, releases)
      ensures report.Some? ==>
                && report.value == ReportOf(script, around.configured, listed, |listed|)
                && forall k :: 0 <= k < |listed| && script.turnOf(listed[k]).ControllerFailed? ==> around.configured
    {
      var c := Report(|listed|, 0, 0, 0, 0, 0, []);
      ghost var store := releases;
      for i := 0 to |listed|
        invariant releases == After(script, store, listed, i)
        invariant forall k :: 0 <= k < i ==> Runs(script, listed[k])
        invariant forall k :: 0 <= k < i && script.turnOf(listed[k]).ControllerFailed? ==> around.configured
        invariant c == ReportOf(script, around.configured, listed, i)
      {
        var turn := FollowScript(around, listed, i, script, store);
        if turn == Abort {
          EndsHere(script, store, listed, i);
          return None;
        }
        c := AddTurn(around.configured, c, listed[i].id, turn);
      }
      return Some(c);
    }

    /** The due run; a refused store call ends it without a report. */
    method ExecuteDueRun(around: Surroundings, listed: seq<Release>) returns (report: Option<Report>)
      requires ListsPending(releases, listed)
      modifies this
      ensures report.Some? <==> forall i :: 0 <= i < |listed| ==> Runs(ScriptOf(around), listed[i])
      ensures report.Some? ==> releases == After(ScriptOf(around), old(releases), listed, |listed|)
      ensures report.None? ==> EndedAt(ScriptOf(around), old(releases), listed, releases)
      ensures report.Some? ==> Reports(ScriptOf(around), around.configured, listed, report.value)
    {
      report := TakeTurns(around, listed, ScriptOf(around));
      if report.Some? {
        ReportCounts(ScriptOf(around), around.configured, listed, |listed|);
        assert listed[..|listed|] == listed;
      }
    }
  }

  /** A finished run puts every listed release in exactly one of promoted, rejected and skipped. */
  lemma {:induction false} CountsPartition(script: Script, listed: seq<Release>)
    requires forall i :: 0 <= i < |listed| ==> Runs(script, listed[i])
    ensures Count(script, listed, IsAdvance) + Count(script, listed, IsExpire) + Count(script, listed, IsHeld) == |listed|
  {
    if listed != [] {
      var n := |listed| - 1;
      CountsPartition(script, listed[..n]);
      CountGrows(script, listed, n, IsAdvance);
      CountGrows(script, listed, n, IsExpire);
      CountGrows(script, listed, n, IsHeld);
      assert listed[..n + 1] == listed;
      assert Runs(script, listed[n]);
    }
  }

  // ----- what a run leaves behind -----

  /** What a listed release may have become once its turn is over. */
  predicate Settled(before: Release, turn: Turn, now: Release) {
    match turn
    case Expire => now.status == Rejected
    case Advance => now.status == Promoted || now.status == Superseded
    case ControllerFailed(_) => now.status == PromotionFailed
    case Hold(_) => now == before
    case Abort => now == before
  }

  /** What a turn does to the other releases: at most supersede a promoted one. */
  predicate Untouched(before: Release, now: Release) {
    now == before || (before.status == Promoted && now == before.(status := Superseded))
  }

  lemma TurnTouchesOnlyItsOwn(promotedAt: Id -> int, store: map<Id, Release>, r: Release, turn: Turn, id: Id)
    requires r.id in store && id in store && id != r.id
    ensures Untouched(store[id], Apply(promotedAt, store, r, turn)[id])
  {
  }

  lemma TurnSettlesItsOwn(promotedAt: Id -> int, store: map<Id, Release>, r: Release, turn: Turn)
    requires r.id in store && store[r.id] == r
    ensures Settled(r, turn, Apply(promotedAt, store, r, turn)[r.id])
  {
  }

  lemma UntouchedTwice(a: Release, b: Release, c: Release)
    requires Untouched(a, b) && Untouched(b, c)
    ensures Untouched(a, c)
  {
  }

  lemma SettledStays(before: Release, turn: Turn, a: Release, b: Release)
    requires Settled(before, turn, a) && Untouched(a, b) && PendingStatus(before.status)
    ensures Settled(before, turn, b)
  {
  }

  /** A release that no turn was about. */
  lemma {:induction false} RunLeavesTheRest(script: Script, store: map<Id, Release>, listed: seq<Release>, n: nat, id: Id)
    requires ListedAsStored(store, listed) && n <= |listed| && id in store
    requires forall k :: 0 <= k < n ==> listed[k].id != id
    ensures Untouched(store[id], After(script, store, listed, n)[id])
  {
    if n > 0 {
      RunLeavesTheRest(script, store, listed, n - 1, id);
      var before, r := After(script, store, listed, n - 1), listed[n - 1];
      TurnTouchesOnlyItsOwn(script.promotedAt, before, r, script.turnOf(r), id);
      UntouchedTwice(store[id], before[id], After(script, store, listed, n)[id]);
    }
  }

  predicate OneTarget(a: Release, b: Release) {
    a.agent == b.agent && a.version == b.version && a.environment == b.environment
  }

  lemma {:induction false} TargetsStay(script: Script, store: map<Id, Release>, listed: seq<Release>, n: nat, id: Id)
    requires ListedAsStored(store, listed) && n <= |listed| && id in store
    ensures OneTarget(store[id], After(script, store, listed, n)[id])
  {
    if n > 0 {
      TargetsStay(script, store, listed, n - 1, id);
      var before, r := After(script, store, listed, n - 1), listed[n - 1];
      LaterReleasesWait(script, store, listed, n - 1, n - 1);
      TurnKeepsTarget(script.promotedAt, before, r, script.turnOf(r), id);
    }
  }

  lemma TurnKeepsTarget(promotedAt: Id -> int, store: map<Id, Release>, r: Release, turn: Turn, id: Id)
    requires r.id in store && store[r.id] == r && id in store
    ensures OneTarget(store[id], Apply(promotedAt, store, r, turn)[id])
  {
  }

  /** The j-th listed release is promoted in its turn and takes the place of any other of the k-th one's target. */
  predicate TakesPlace(script: Script, listed: seq<Release>, k: nat, j: nat)
    requires k < |listed| && j < |listed|
  {
    script.turnOf(listed[j]).Advance? && SameTarget(listed[k], listed[j])
  }

  lemma TurnDemotesIff(promotedAt: Id -> int, store: map<Id, Release>, r: Release, turn: Turn, id: Id)
    requires r.id in store && id in store && id != r.id
    ensures Apply(promotedAt, store, r, turn)[id].status == Promoted
       <==> store[id].status == Promoted && !(turn.Advance? && SameTarget(store[id], r))
  {
  }

  lemma TurnPromotesIff(promotedAt: Id -> int, store: map<Id, Release>, r: Release, turn: Turn)
    requires r.id in store && store[r.id] == r && PendingStatus(r.status)
    ensures Apply(promotedAt, store, r, turn)[r.id].status == Promoted <==> turn.Advance?
  {
  }

  ghost predicate KeepsPlace(script: Script, listed: seq<Release>, k: nat, n: nat)
    requires k < n <= |listed|
  {
    forall j :: k < j < n ==> !TakesPlace(script, listed, k, j)
  }

  lemma TurnLeavesPlaceIff(script: Script, store: map<Id, Release>, listed: seq<Release>, k: nat, m: nat)
    requires k < m < |listed| && listed[k].id in store && listed[m].id in store && listed[k].id != listed[m].id
    requires OneTarget(listed[k], store[listed[k].id])
    ensures Apply(script.promotedAt, store, listed[m], script.turnOf(listed[m]))[listed[k].id].status == Promoted
       <==> store[listed[k].id].status == Promoted && !TakesPlace(script, listed, k, m)
  {
    TurnDemotesIff(script.promotedAt, store, listed[m], script.turnOf(listed[m]), listed[k].id);
  }

  lemma OwnTurnPromotesIff(script: Script, store: map<Id, Release>, listed: seq<Release>, k: nat)
    requires ListedAsStored(store, listed) && k < |listed|
    ensures After(script, store, listed, k + 1)[listed[k].id].status == Promoted <==> script.turnOf(listed[k]).Advance?
  {
    LaterReleasesWait(script, store, listed, k, k);
    assert StoredPending(store, listed[k]);
    TurnPromotesIff(script.promotedAt, After(script, store, listed, k), listed[k], script.turnOf(listed[k]));
  }

  /** After its turn a release is promoted exactly if that turn advanced it and no later turn took its place. */
  lemma {:induction false} PromotedIff(script: Script, store: map<Id, Release>, listed: seq<Release>, n: nat, k: nat)
    requires ListedAsStored(store, listed) && k < n <= |listed|
    ensures After(script, store, listed, n)[listed[k].id].status == Promoted
       <==> script.turnOf(listed[k]).Advance? && KeepsPlace(script, listed, k, n)
  {
    if k == n - 1 {
      OwnTurnPromotesIff(script, store, listed, k);
    } else {
      PromotedIff(script, store, listed, n - 1, k);
      LaterTurnLeavesIff(script, store, listed, n - 1, k);
      OneMorePlace(script, listed, k, n - 1);
    }
  }

  lemma LaterTurnLeavesIff(script: Script, store: map<Id, Release>, listed: seq<Release>, m: nat, k: nat)
    requires ListedAsStored(store, listed) && k < m < |listed|
    ensures After(script, store, listed, m + 1)[listed[k].id].status == Promoted
       <==> After(script, store, listed, m)[listed[k].id].status == Promoted && !TakesPlace(script, listed, k, m)
  {
    StoredAt(store, listed, k, m);
    TargetsStay(script, store, listed, m, listed[k].id);
    TurnLeavesPlaceIff(script, After(script, store, listed, m), listed, k, m);
  }

  lemma StoredAt(store: map<Id, Release>, listed: seq<Release>, k: nat, m: nat)
    requires ListedAsStored(store, listed) && k < m < |listed|
    ensures listed[k].id in store && store[listed[k].id] == listed[k] && listed[k].id != listed[m].id
  {
    assert StoredPending(store, listed[k]);
  }

  lemma OneMorePlace(script: Script, listed: seq<Release>, k: nat, m: nat)
    requires k < m < |listed|
    ensures KeepsPlace(script, listed, k, m + 1) <==> KeepsPlace(script, listed, k, m) && !TakesPlace(script, listed, k, m)
  {
  }

  /** The release had a turn among the first `n` that was justified, and no later one took its place. */
  ghost predicate EarnedPromotion(around: Surroundings, store: map<Id, Release>, listed: seq<Release>, n: nat, id: Id)
    requires ListedAsStored(store, listed) && n <= |listed|
  {
    exists k: nat :: k < n && listed[k].id == id && EarnedAt(around, store, listed, n, k)
  }

  ghost predicate EarnedAt(around: Surroundings, store: map<Id, Release>, listed: seq<Release>, n: nat, k: nat)
    requires ListedAsStored(store, listed) && k < n <= |listed|
  {
    && Justified(around, After(ScriptOf(around), store, listed, k)[listed[k].id])
    && forall j :: k < j < n ==> !(Justified(around, listed[j]) && SameTarget(listed[k], listed[j]))
  }

  lemma ScriptFollows(around: Surroundings)
    ensures Follows(ScriptOf(around), around)
  {
  }

  lemma EarnedIff(around: Surroundings, script: Script, store: map<Id, Release>, listed: seq<Release>, n: nat, k: nat)
    requires script == ScriptOf(around) && Follows(script, around) && ListedAsStored(store, listed) && k < n <= |listed|
    ensures After(script, store, listed, n)[listed[k].id].status == Promoted <==> EarnedAt(around, store, listed, n, k)
  {
    PromotedIff(script, store, listed, n, k);
    LaterReleasesWait(script, store, listed, k, k);
    AdvancesInScriptIff(around, script, listed[k]);
    KeepsPlaceIff(around, script, listed, k, n);
  }

  lemma AdvancesInScriptIff(around: Surroundings, script: Script, r: Release)
    requires Follows(script, around)
    ensures script.turnOf(r).Advance? <==> Justified(around, r)
  {
    assert script.turnOf(r) == TurnFor(around, r);
    AdvancesIff(around, r);
  }

  lemma KeepsPlaceIff(around: Surroundings, script: Script, listed: seq<Release>, k: nat, n: nat)
    requires Follows(script, around) && k < n <= |listed|
    ensures KeepsPlace(script, listed, k, n) <==> forall j :: k < j < n ==> !(Justified(around, listed[j]) && SameTarget(listed[k], listed[j]))
  {
    forall j | k < j < n
      ensures TakesPlace(script, listed, k, j) <==> Justified(around, listed[j]) && SameTarget(listed[k], listed[j])
    {
      AdvancesInScriptIff(around, script, listed[j]);
    }
  }

  /**
    Over the turns of a run, a release becomes promoted exactly if it was listed, its
    promotion was justified as it stood in the store at its turn, and no later promotion of
    the same target superseded it.
   */
  lemma PromotionIsJustified(around: Surroundings, store: map<Id, Release>, listed: seq<Release>, n: nat, id: Id)
    requires ListedAsStored(store, listed) && n <= |listed| && id in store
    ensures After(ScriptOf(around), store, listed, n)[id].status == Promoted && store[id].status != Promoted
       <==> EarnedPromotion(around, store, listed, n, id)
  {
    var script := ScriptOf(around);
    ScriptFollows(around);
    if k: nat :| k < n && listed[k].id == id {
      EarnedIff(around, script, store, listed, n, k);
      EarnedByOne(around, store, listed, n, k);
    } else {
      RunLeavesTheRest(script, store, listed, n, id);
    }
  }

  lemma EarnedByOne(around: Surroundings, store: map<Id, Release>, listed: seq<Release>, n: nat, k: nat)
    requires ListedAsStored(store, listed) && k < n <= |listed|
    ensures listed[k].id in store && store[listed[k].id].status != Promoted
    ensures EarnedPromotion(around, store, listed, n, listed[k].id) <==> EarnedAt(around, store, listed, n, k)
  {
    assert StoredPending(store, listed[k]);
    forall j: nat | j < n && listed[j].id == listed[k].id
      ensures j == k
    {
      if j < k {
        StoredAt(store, listed, j, k);
      } else if k < j {
        StoredAt(store, listed, k, j);
      }
    }
  }

  /**
    Once a release's turn is over it is settled for the run: promoted (or superseded by a
    later promotion), rejected, failed, or as it was.  No promotion is left begun.
   */
  lemma {:induction false} RunSettlesEverything(script: Script, store: map<Id, Release>, listed: seq<Release>, n: nat, k: nat)
    requires ListedAsStored(store, listed) && k < n <= |listed|
    ensures Settled(listed[k], script.turnOf(listed[k]), After(script, store, listed, n)[listed[k].id])
  {
    var before, r := After(script, store, listed, n - 1), listed[n - 1];
    if k == n - 1 {
      LaterReleasesWait(script, store, listed, k, k);
      TurnSettlesItsOwn(script.promotedAt, before, r, script.turnOf(r));
    } else {
      RunSettlesEverything(script, store, listed, n - 1, k);
      TurnTouchesOnlyItsOwn(script.promotedAt, before, r, script.turnOf(r), listed[k].id);
      SettledStays(listed[k], script.turnOf(listed[k]), before[listed[k].id], After(script, store, listed, n)[listed[k].id]);
    }
  }

  predicate BothPromoted(store: map<Id, Release>, a: Id, b: Id) {
    && a in store && b in store
    && store[a].status == Promoted && store[b].status == Promoted && SameTarget(store[a], store[b])
  }

  ghost predicate OnePromotedPerTarget(store: map<Id, Release>) {
    forall a, b {:trigger BothPromoted(store, a, b)} :: BothPromoted(store, a, b) ==> a == b
  }

  /** No run ever leaves two promoted releases for one agent, version and environment. */
  lemma {:induction false} RunKeepsOnePromoted(script: Script, store: map<Id, Release>, listed: seq<Release>, n: nat)
    requires ListedAsStored(store, listed) && n <= |listed| && OnePromotedPerTarget(store)
    ensures OnePromotedPerTarget(After(script, store, listed, n))
  {
    if n > 0 {
      RunKeepsOnePromoted(script, store, listed, n - 1);
      LaterReleasesWait(script, store, listed, n - 1, n - 1);
      var before, r := After(script, store, listed, n - 1), listed[n - 1];
      assert StoredPending(store, r);
      TurnKeepsOnePromoted(script.promotedAt, before, r, script.turnOf(r), After(script, store, listed, n));
    }
  }

  lemma TurnKeepsOnePromoted(promotedAt: Id -> int, store: map<Id, Release>, r: Release, turn: Turn, later: map<Id, Release>)
    requires r.id in store && store[r.id] == r && OnePromotedPerTarget(store)
    requires later == Apply(promotedAt, store, r, turn)
    ensures OnePromotedPerTarget(later)
  {
    forall a, b | BothPromoted(later, a, b)
      ensures a == b
    {
      if turn.Advance? {
        if a != r.id && b != r.id {
          assert later[a] == store[a] && later[b] == store[b];
          assert BothPromoted(store, a, b);
        }
      } else {
        assert BothPromoted(store, a, b);
      }
    }
  }
}
