/** Runs that notify the approvers of everything pending, at most once a day each. */
module NotificationRuns {
  import opened Wrappers
  import opened Sequences
  import opened Json
  import opened NotificationRouting

  const DAY: int := 86_400

  datatype Audit = Audit(action: string, resource: Option<Id>, at: int)

  const NOTIFIED: string := "approval.notification_delivered"
  const RUN_FINISHED: string := "approval.notification_delivery_run"

  /** The approvals the log shows as notified in the day before `now`. */
  function RecentlyNotified(audit: seq<Audit>, now: int): set<Id> {
    set i | 0 <= i < |audit| && audit[i].action == NOTIFIED && audit[i].at >= now - DAY && audit[i].resource.Some?
      :: audit[i].resource.value
  }

  /**
    What a run meets: the approvals, the network each delivery sees, when its success is
    logged, and whether the store accepts each expiry.
   */
  datatype Run = Run(
    world: World,
    approvals: seq<Approval>,
    startedAt: int,
    maxDeliveries: nat,
    networks: Id -> Network,
    loggedAt: Id -> int,
    expires: Id -> bool)

  datatype Progress = Progress(
    audit: seq<Audit>,
    delivered: seq<Id>,
    reserved: nat,
    failed: seq<Id>,
    skipped: nat,
    expired: seq<Id>,
    aborted: bool)

  predicate Expired(approval: Approval, now: int) {
    approval.status == "pending" && approval.expiresAt.Some? && approval.expiresAt.value <= now
  }

  datatype Outcome = Sent | Unsent | Refused

  function OutcomeOf(run: Run, a: Approval): Outcome {
    match Deliver(run.world, a, run.networks(a.id))
    case Err(_) => Refused
    case Ok(d) => if d.delivered then Sent else Unsent
  }

  /** What one pass over the candidates goes by. */
  datatype Pass = Pass(startedAt: int, recent: set<Id>, outcome: Approval -> Outcome, loggedAt: Id -> int, expires: Id -> bool)

  function PassOf(run: Run, audit: seq<Audit>): Pass {
    Pass(run.startedAt, RecentlyNotified(audit, run.startedAt), a => OutcomeOf(run, a), run.loggedAt, run.expires)
  }

  /** One candidate's turn. */
  function Handle(pass: Pass, a: Approval, p: Progress): Progress {
    if p.aborted then p
    else if Expired(a, pass.startedAt) then
      if pass.expires(a.id) then p.(skipped := p.skipped + 1, expired := p.expired + [a.id]) else p.(aborted := true)
    else if a.id in pass.recent then p.(skipped := p.skipped + 1)
    else
      match pass.outcome(a)
      case Refused => p.(failed := p.failed + [a.id])
      case Unsent => p.(reserved := p.reserved + 1)
      case Sent => p.(delivered := p.delivered + [a.id], audit := p.audit + [Audit(NOTIFIED, Some(a.id), pass.loggedAt(a.id))])
  }

  function HandleFirst(pass: Pass, candidates: seq<Approval>, n: nat, p: Progress): Progress
    requires n <= |candidates|
  {
    if n == 0 then p else Handle(pass, candidates[n - 1], HandleFirst(pass, candidates, n - 1, p))
  }

  function Start(run: Run, audit: seq<Audit>): Progress {
    var count := |Pending(run.approvals)|;
    Progress(audit, [], 0, [], if count > run.maxDeliveries then count - run.maxDeliveries else 0, [], false)
  }

  function Candidates(run: Run): seq<Approval> {
    Take(run.maxDeliveries, Pending(run.approvals))
  }

  function Finish(run: Run, audit: seq<Audit>): Progress {
    HandleFirst(PassOf(run, audit), Candidates(run), |Candidates(run)|, Start(run, audit))
  }

  function RunStatus(delivered: nat, reserved: nat, failed: nat): string {
    if failed > 0 && delivered > 0 then "partial_failure"
    else if failed > 0 then "failed"
    else if delivered > 0 then "delivered"
    else if reserved > 0 then "reserved"
    else "no_pending"
  }

  /** What a run's status says about its counts. */
  lemma RunStatusMeans(delivered: nat, reserved: nat, failed: nat)
    ensures RunStatus(delivered, reserved, failed) == "no_pending" <==> delivered == reserved == failed == 0
    ensures RunStatus(delivered, reserved, failed) == "delivered" <==> delivered > 0 && failed == 0
    ensures RunStatus(delivered, reserved, failed) == "partial_failure" <==> delivered > 0 && failed > 0
    ensures RunStatus(delivered, reserved, failed) == "failed" <==> delivered == 0 && failed > 0
    ensures RunStatus(delivered, reserved, failed) == "reserved" <==> delivered == failed == 0 && reserved > 0
  {
    assert |"partial_failure"| == 15 && |"failed"| == 6 && |"delivered"| == 9 && |"reserved"| == 8 && |"no_pending"| == 10;
  }

  datatype Report = Report(status: string, candidates: nat, delivered: nat, reserved: nat, failed: nat, skipped: nat)

  class Notifier {
    var audit: seq<Audit>

    constructor ()
      ensures audit == []
    {
      audit := [];
    }

    /** The loop over the candidates; a refused expiry ends it. */
    method NotifyCandidates(run: Run, recent: set<Id>, candidates: seq<Approval>, overLimit: nat, ghost pass: Pass, ghost start: Progress)
      returns (finished: bool, delivered: nat, reserved: nat, failed: nat, skipped: nat)
      requires pass.startedAt == run.startedAt && pass.recent == recent && pass.loggedAt == run.loggedAt && pass.expires == run.expires
      requires Follows(pass, run)
      requires start == Progress(audit, [], 0, [], overLimit, [], false)
      modifies this
      ensures var p := HandleFirst(pass, candidates, |candidates|, start);
              && finished == !p.aborted && audit == p.audit
              && (finished ==> delivered == |p.delivered| && reserved == p.reserved && failed == |p.failed| && skipped == p.skipped)
    {
      delivered, reserved, failed, skipped := 0, 0, 0, overLimit;
      ghost var p := start;
      for i := 0 to |candidates|
        invariant p == HandleFirst(pass, candidates, i, start) && !p.aborted
        invariant audit == p.audit
        invariant delivered == |p.delivered| && reserved == p.reserved && failed == |p.failed| && skipped == p.skipped
      {
        var approval := candidates[i];
        ghost var before := p;
        p := Handle(pass, approval, before);
        if Expired(approval, run.startedAt) {
          if !run.expires(approval.id) {
            AbortedStaysAborted(pass, candidates, i + 1, |candidates|, start);
            return false, 0, 0, 0, 0;
          }
          skipped := skipped + 1;
        } else if approval.id in recent {
          skipped := skipped + 1;
        } else {
          var outcome := Attempt(run, approval, pass);
          if outcome.Refused? {
            failed := failed + 1;
          } else if outcome.Sent? {
            audit := audit + [Audit(NOTIFIED, Some(approval.id), run.loggedAt(approval.id))];
            delivered := delivered + 1;
          } else {
            reserved := reserved + 1;
          }
        }
      }
      finished := true;
    }

    /** The run, from the reading of the log to the entry that closes it. */
    method ExecuteDeliveryRun(run: Run) returns (r: Result<Report>)
      modifies this
      ensures var p := Finish(run, old(audit));
              && (r.Err? <==> p.aborted)
              && audit == p.audit + (if p.aborted then [] else [Audit(RUN_FINISHED, None, run.startedAt)])
              && (r.Ok? ==> r.value == Report(RunStatus(|p.delivered|, p.reserved, |p.failed|), |Pending(run.approvals)|,
                                              |p.delivered|, p.reserved, |p.failed|, p.skipped))
    {
      var recent := RecentlyNotified(audit, run.startedAt);
      var pending := Pending(run.approvals);
      var candidates := Candidates(run);
      var overLimit := if |pending| > run.maxDeliveries then |pending| - run.maxDeliveries else 0;
      var finished, delivered, reserved, failed, skipped :=
        NotifyCandidates(run, recent, candidates, overLimit, PassOf(run, audit), Start(run, audit));
      if !finished {
        return Err("approval expiry failed");
      }
      audit := audit + [Audit(RUN_FINISHED, None, run.startedAt)];
      return Ok(Report(RunStatus(delivered, reserved, failed), |pending|, delivered, reserved, failed, skipped));
    }
  }

  /** A pass takes its outcomes from the deliveries the run makes. */
  ghost predicate Follows(pass: Pass, run: Run) {
    forall a: Approval {:trigger OutcomeOf(run, a)} :: pass.outcome(a) == OutcomeOf(run, a)
  }

  method Attempt(run: Run, approval: Approval, ghost pass: Pass) returns (outcome: Outcome)
    requires Follows(pass, run)
    ensures outcome == pass.outcome(approval)
  {
    assert pass.outcome(approval) == OutcomeOf(run, approval);
    var delivery := DeliverNotification(run.world, approval, run.networks(approval.id));
    outcome := if delivery.Err? then Refused else if delivery.value.delivered then Sent else Unsent;
  }

  lemma {:induction false} AbortedStaysAborted(pass: Pass, candidates: seq<Approval>, n: nat, m: nat, p: Progress)
    requires n <= m <= |candidates| && HandleFirst(pass, candidates, n, p).aborted
    ensures HandleFirst(pass, candidates, m, p) == HandleFirst(pass, candidates, n, p)
  {
    if n < m {
      AbortedStaysAborted(pass, candidates, n, m - 1, p);
    }
  }

  // ----- conservation -----

  lemma {:induction false} HandledAreCounted(pass: Pass, candidates: seq<Approval>, n: nat, p: Progress)
    requires n <= |candidates| && !HandleFirst(pass, candidates, n, p).aborted
    ensures var q := HandleFirst(pass, candidates, n, p);
            |q.delivered| + q.reserved + |q.failed| + q.skipped == |p.delivered| + p.reserved + |p.failed| + p.skipped + n
  {
    if n > 0 {
      HandledAreCounted(pass, candidates, n - 1, p);
    }
  }

  /** A run that finishes accounts for every candidate, whatever its limit. */
  lemma EveryCandidateCounted(run: Run, audit: seq<Audit>)
    requires !Finish(run, audit).aborted
    ensures var p := Finish(run, audit);
            |p.delivered| + p.reserved + |p.failed| + p.skipped == |Pending(run.approvals)|
  {
    var candidates := Candidates(run);
    HandledAreCounted(PassOf(run, audit), candidates, |candidates|, Start(run, audit));
  }

  // ----- at most once a day -----

  ghost predicate Logged(audit: seq<Audit>, id: Id, since: int) {
    exists i :: 0 <= i < |audit| && audit[i].action == NOTIFIED && audit[i].resource == Some(id) && audit[i].at >= since
  }

  lemma LoggedStays(audit: seq<Audit>, longer: seq<Audit>, id: Id, since: int)
    requires audit <= longer
    ensures Logged(audit, id, since) ==> Logged(longer, id, since)
  {
    if Logged(audit, id, since) {
      var i :| 0 <= i < |audit| && audit[i].action == NOTIFIED && audit[i].resource == Some(id) && audit[i].at >= since;
      assert longer[i] == audit[i];
    }
  }

  lemma HandlingLogs(pass: Pass, a: Approval, p: Progress, id: Id)
    requires pass.loggedAt(id) >= pass.startedAt && id !in p.delivered
    ensures var q := Handle(pass, a, p);
            && p.audit <= q.audit
            && (id in q.delivered ==> id !in pass.recent && Logged(q.audit, id, pass.startedAt))
  {
    var q := Handle(pass, a, p);
    if id in q.delivered {
      assert q.audit[|p.audit|].resource == Some(id);
    }
  }

  lemma HandlingKeeps(pass: Pass, a: Approval, p: Progress)
    ensures p.audit <= Handle(pass, a, p).audit
  {
  }

  lemma {:induction false} DeliveriesAreLoggedAndNew(pass: Pass, candidates: seq<Approval>, n: nat, p: Progress, id: Id)
    requires n <= |candidates| && p.delivered == [] && pass.loggedAt(id) >= pass.startedAt
    ensures var q := HandleFirst(pass, candidates, n, p);
            && p.audit <= q.audit
            && (id in q.delivered ==> id !in pass.recent && Logged(q.audit, id, pass.startedAt))
  {
    if n > 0 {
      DeliveriesAreLoggedAndNew(pass, candidates, n - 1, p, id);
      var before := HandleFirst(pass, candidates, n - 1, p);
      HandlingKeeps(pass, candidates[n - 1], before);
      if id in before.delivered {
        LoggedStays(before.audit, HandleFirst(pass, candidates, n, p).audit, id, pass.startedAt);
      } else {
        HandlingLogs(pass, candidates[n - 1], before, id);
      }
    }
  }

  /** One run after another; between runs others may add to the log, never take from it. */
  datatype Turn = Turn(others: seq<Audit>, run: Run)

  function AuditAfter(turns: seq<Turn>): seq<Audit> {
    if turns == [] then []
    else
      var last := turns[|turns| - 1];
      var p := Finish(last.run, AuditAfter(turns[..|turns| - 1]) + last.others);
      p.audit + if p.aborted then [] else [Audit(RUN_FINISHED, None, last.run.startedAt)]
  }

  /** What the k-th run delivered. */
  function DeliveredBy(turns: seq<Turn>, k: nat): seq<Id>
    requires k < |turns|
  {
    Finish(turns[k].run, AuditAfter(turns[..k]) + turns[k].others).delivered
  }

  /** A success is never logged before the run that had it started. */
  ghost predicate ClockMoves(turns: seq<Turn>) {
    forall k :: 0 <= k < |turns| ==> forall x: Id :: turns[k].run.loggedAt(x) >= turns[k].run.startedAt
  }

  lemma RunLogs(turns: seq<Turn>, k: nat, id: Id)
    requires ClockMoves(turns) && k < |turns|
    ensures AuditAfter(turns[..k]) <= AuditAfter(turns[..k + 1])
    ensures id in DeliveredBy(turns, k) ==>
              && Logged(AuditAfter(turns[..k + 1]), id, turns[k].run.startedAt)
              && id !in RecentlyNotified(AuditAfter(turns[..k]) + turns[k].others, turns[k].run.startedAt)
  {
    var run, audit := turns[k].run, AuditAfter(turns[..k]) + turns[k].others;
    var candidates := Candidates(run);
    assert turns[..k + 1][..k] == turns[..k];
    DeliveriesAreLoggedAndNew(PassOf(run, audit), candidates, |candidates|, Start(run, audit), id);
    LoggedStays(Finish(run, audit).audit, AuditAfter(turns[..k + 1]), id, run.startedAt);
  }

  lemma PrefixOfPrefix<T>(a: seq<T>, b: seq<T>, c: seq<T>)
    requires a <= b <= c
    ensures a <= c
  {
  }

  lemma {:induction false} LogOnlyGrows(turns: seq<Turn>, j: nat, k: nat)
    requires ClockMoves(turns) && j <= k <= |turns|
    ensures AuditAfter(turns[..j]) <= AuditAfter(turns[..k])
  {
    if j < k {
      LogOnlyGrows(turns, j, k - 1);
      RunOnlyAdds(turns, k - 1);
      PrefixOfPrefix(AuditAfter(turns[..j]), AuditAfter(turns[..k - 1]), AuditAfter(turns[..k]));
    }
  }

  lemma RunOnlyAdds(turns: seq<Turn>, k: nat)
    requires ClockMoves(turns) && k < |turns|
    ensures AuditAfter(turns[..k]) <= AuditAfter(turns[..k + 1])
  {
    RunLogs(turns, k, 0);
  }

  /** Two runs that both deliver the same approval start more than a day apart. */
  lemma DeliveredAtMostOnceADay(turns: seq<Turn>, j: nat, k: nat, id: Id)
    requires ClockMoves(turns) && j < k < |turns|
    requires id in DeliveredBy(turns, j) && id in DeliveredBy(turns, k)
    ensures turns[k].run.startedAt - turns[j].run.startedAt > DAY
  {
    RunLogs(turns, j, id);
    RunLogs(turns, k, id);
    LogOnlyGrows(turns, j + 1, k);
    var audit := AuditAfter(turns[..k]) + turns[k].others;
    LoggedStays(AuditAfter(turns[..j + 1]), AuditAfter(turns[..k]), id, turns[j].run.startedAt);
    LoggedStays(AuditAfter(turns[..k]), audit, id, turns[j].run.startedAt);
    var i :| 0 <= i < |audit| && audit[i].action == NOTIFIED && audit[i].resource == Some(id)
             && audit[i].at >= turns[j].run.startedAt;
    assert audit[i].resource.value !in RecentlyNotified(audit, turns[k].run.startedAt);
  }

  // ----- what a run delivers, exactly -----

  /** A refused expiry, which ends the pass. */
  predicate Aborts(pass: Pass, a: Approval) {
    Expired(a, pass.startedAt) && !pass.expires(a.id)
  }

  /** The k-th candidate is tried: nothing before it ended the pass, it has not expired, and its approval was not notified recently. */
  predicate Tried(pass: Pass, candidates: seq<Approval>, k: nat)
    requires k < |candidates|
  {
    && (forall j :: 0 <= j < k ==> !Aborts(pass, candidates[j]))
    && !Expired(candidates[k], pass.startedAt) && candidates[k].id !in pass.recent
  }

  /** Some candidate among the first `n` is tried with this outcome. */
  ghost predicate Meets(pass: Pass, candidates: seq<Approval>, n: nat, outcome: Outcome)
    requires n <= |candidates|
  {
    exists k :: 0 <= k < n && Tried(pass, candidates, k) && pass.outcome(candidates[k]) == outcome
  }

  /** The same, for the candidate of one approval, sent. */
  ghost predicate Sends(pass: Pass, candidates: seq<Approval>, n: nat, id: Id)
    requires n <= |candidates|
  {
    exists k :: 0 <= k < n && Tried(pass, candidates, k) && pass.outcome(candidates[k]) == Sent && candidates[k].id == id
  }

  lemma {:induction false} AbortedIff(pass: Pass, candidates: seq<Approval>, n: nat, p: Progress)
    requires n <= |candidates| && !p.aborted
    ensures HandleFirst(pass, candidates, n, p).aborted <==> exists j :: 0 <= j < n && Aborts(pass, candidates[j])
  {
    if n > 0 {
      AbortedIff(pass, candidates, n - 1, p);
      assert HandleFirst(pass, candidates, n, p) == Handle(pass, candidates[n - 1], HandleFirst(pass, candidates, n - 1, p));
      assert Handle(pass, candidates[n - 1], HandleFirst(pass, candidates, n - 1, p)).aborted
          == (HandleFirst(pass, candidates, n - 1, p).aborted || Aborts(pass, candidates[n - 1]));
    }
  }

  /** How one turn moves the progress: by the outcome if the candidate is tried, and in no count of outcomes if not. */
  lemma TurnMoves(pass: Pass, candidates: seq<Approval>, n: nat, p: Progress)
    requires n < |candidates| && !p.aborted
    ensures var q, r, a := HandleFirst(pass, candidates, n, p), HandleFirst(pass, candidates, n + 1, p), candidates[n];
            if !Tried(pass, candidates, n) then
              r.delivered == q.delivered && r.reserved == q.reserved && r.failed == q.failed && r.audit == q.audit
            else
              && r.delivered == q.delivered + (if pass.outcome(a) == Sent then [a.id] else [])
              && r.reserved == q.reserved + (if pass.outcome(a) == Unsent then 1 else 0)
              && r.failed == q.failed + (if pass.outcome(a) == Refused then [a.id] else [])
  {
    AbortedIff(pass, candidates, n, p);
    assert HandleFirst(pass, candidates, n + 1, p) == Handle(pass, candidates[n], HandleFirst(pass, candidates, n, p));
  }

  lemma OneMoreMeets(pass: Pass, candidates: seq<Approval>, n: nat, outcome: Outcome, id: Id)
    requires n < |candidates|
    ensures Meets(pass, candidates, n + 1, outcome)
       <==> Meets(pass, candidates, n, outcome) || (Tried(pass, candidates, n) && pass.outcome(candidates[n]) == outcome)
    ensures Sends(pass, candidates, n + 1, id)
       <==> Sends(pass, candidates, n, id)
            || (Tried(pass, candidates, n) && pass.outcome(candidates[n]) == Sent && candidates[n].id == id)
  {
  }

  /** After any number of turns, each count of outcomes is positive exactly if some tried candidate had that outcome. */
  lemma {:induction false} OutcomesAreThoseTried(pass: Pass, candidates: seq<Approval>, n: nat, p: Progress, id: Id)
    requires n <= |candidates| && !p.aborted && p.delivered == [] && p.reserved == 0 && p.failed == []
    ensures var q := HandleFirst(pass, candidates, n, p);
            && (q.delivered != [] <==> Meets(pass, candidates, n, Sent))
            && (q.reserved > 0 <==> Meets(pass, candidates, n, Unsent))
            && (q.failed != [] <==> Meets(pass, candidates, n, Refused))
            && (id in q.delivered <==> Sends(pass, candidates, n, id))
  {
    if n > 0 {
      OutcomesAreThoseTried(pass, candidates, n - 1, p, id);
      TurnMoves(pass, candidates, n - 1, p);
      OneMoreMeets(pass, candidates, n - 1, Sent, id);
      OneMoreMeets(pass, candidates, n - 1, Unsent, id);
      OneMoreMeets(pass, candidates, n - 1, Refused, id);
    }
  }

  /** An approval is a candidate within the limit that has not expired and is sent, and no candidate before it ends the run. */
  ghost predicate Offers(run: Run, id: Id) {
    exists k :: 0 <= k < |Candidates(run)| && OffersAt(run, id, k)
  }

  ghost predicate OffersAt(run: Run, id: Id, k: nat)
    requires k < |Candidates(run)|
  {
    var a := Candidates(run)[k];
    && a.id == id && !Expired(a, run.startedAt) && OutcomeOf(run, a) == Sent
    && forall j :: 0 <= j < k ==> Expired(Candidates(run)[j], run.startedAt) ==> run.expires(Candidates(run)[j].id)
  }

  lemma SendsInRun(run: Run, pass: Pass, id: Id)
    requires pass.startedAt == run.startedAt && pass.expires == run.expires && Follows(pass, run)
    ensures Sends(pass, Candidates(run), |Candidates(run)|, id) <==> Offers(run, id) && id !in pass.recent
  {
    var candidates := Candidates(run);
    forall k | 0 <= k < |candidates|
      ensures Tried(pass, candidates, k) && pass.outcome(candidates[k]) == Sent && candidates[k].id == id
         <==> OffersAt(run, id, k) && id !in pass.recent
    {
      assert pass.outcome(candidates[k]) == OutcomeOf(run, candidates[k]);
      assert (forall j :: 0 <= j < k ==> !Aborts(pass, candidates[j]))
        <==> forall j :: 0 <= j < k ==> Expired(candidates[j], run.startedAt) ==> run.expires(candidates[j].id);
    }
  }

  /** A run delivers exactly the approvals it offers that its reading of the log does not show as recently notified. */
  lemma DeliveredIff(run: Run, audit: seq<Audit>, id: Id)
    ensures id in Finish(run, audit).delivered <==> Offers(run, id) && id !in RecentlyNotified(audit, run.startedAt)
  {
    var pass, candidates := PassOf(run, audit), Candidates(run);
    OutcomesAreThoseTried(pass, candidates, |candidates|, Start(run, audit), id);
    PassFollows(run, audit);
    SendsInRun(run, pass, id);
  }

  lemma PassFollows(run: Run, audit: seq<Audit>)
    ensures Follows(PassOf(run, audit), run)
  {
  }

  /** A finished run notified some candidate with this outcome. */
  ghost predicate Notified(run: Run, audit: seq<Audit>, outcome: Outcome) {
    exists k :: 0 <= k < |Candidates(run)| && !Expired(Candidates(run)[k], run.startedAt)
                && Candidates(run)[k].id !in RecentlyNotified(audit, run.startedAt)
                && OutcomeOf(run, Candidates(run)[k]) == outcome
  }

  lemma NotifiedIffMet(run: Run, audit: seq<Audit>, pass: Pass, outcome: Outcome)
    requires pass.startedAt == run.startedAt && pass.recent == RecentlyNotified(audit, run.startedAt) && Follows(pass, run)
    requires forall j :: 0 <= j < |Candidates(run)| ==> !Aborts(pass, Candidates(run)[j])
    ensures Notified(run, audit, outcome) <==> Meets(pass, Candidates(run), |Candidates(run)|, outcome)
  {
    var candidates := Candidates(run);
    forall k | 0 <= k < |candidates|
      ensures pass.outcome(candidates[k]) == OutcomeOf(run, candidates[k])
      ensures Tried(pass, candidates, k) <==> !Expired(candidates[k], run.startedAt) && candidates[k].id !in pass.recent
    {
    }
  }

  /** What the status of a finished run says about its candidates. */
  lemma StatusTellsOutcomes(run: Run, audit: seq<Audit>)
    requires !Finish(run, audit).aborted
    ensures var p := Finish(run, audit);
            var status := RunStatus(|p.delivered|, p.reserved, |p.failed|);
            var sent, unsent, refused := Notified(run, audit, Sent), Notified(run, audit, Unsent), Notified(run, audit, Refused);
            && (status == "delivered" <==> sent && !refused)
            && (status == "partial_failure" <==> sent && refused)
            && (status == "failed" <==> !sent && refused)
            && (status == "reserved" <==> !sent && !refused && unsent)
            && (status == "no_pending" <==> !sent && !refused && !unsent)
  {
    var pass, candidates, p := PassOf(run, audit), Candidates(run), Finish(run, audit);
    OutcomesAreThoseTried(pass, candidates, |candidates|, Start(run, audit), 0);
    AbortedIff(pass, candidates, |candidates|, Start(run, audit));
    RunStatusMeans(|p.delivered|, p.reserved, |p.failed|);
    PassFollows(run, audit);
    NotifiedIffMet(run, audit, pass, Sent);
    NotifiedIffMet(run, audit, pass, Unsent);
    NotifiedIffMet(run, audit, pass, Refused);
  }

  // ----- where the limit does not reach -----

  /** The delivery got through a channel with an address. */
  ghost predicate Heard(configs: seq<Config>, network: Network, i: nat)
    requires i < |configs|
  {
    configs[i].url.Some? && DeliverEach(configs, network, i + 1).Ok?
  }

  ghost predicate SomeHeard(run: Run, a: Approval) {
    var configs := Configs(run.world, a);
    Targets(run.world, a) != [] && exists i :: 0 <= i < |configs| && Heard(configs, run.networks(a.id), i)
  }

  /** The first channel with an address answers in time, and a later one with an address does not. */
  ghost predicate FirstOnly(configs: seq<Config>, network: Network, i: nat, j: nat)
    requires i < j < |configs|
  {
    && (forall h :: 0 <= h < i ==> configs[h].url.None?)
    && configs[i].url.Some? && SucceedsInTime(configs, network, i)
    && configs[j].url.Some? && !SucceedsInTime(configs, network, j)
  }

  ghost predicate Halfway(configs: seq<Config>, network: Network) {
    exists i: nat, j: nat :: i < j < |configs| && FirstOnly(configs, network, i, j)
  }

  /** A channel does not stop the delivery. */
  ghost predicate Passes(configs: seq<Config>, network: Network, i: nat)
    requires i < |configs|
  {
    configs[i].url.None? || SucceedsInTime(configs, network, i)
  }

  ghost predicate AllPass(configs: seq<Config>, network: Network, n: nat)
    requires n <= |configs|
  {
    forall i :: 0 <= i < n ==> Passes(configs, network, i)
  }

  lemma DeliveredUpTo(configs: seq<Config>, network: Network, n: nat)
    requires n <= |configs|
    ensures DeliverEach(configs, network, n).Ok? <==> AllPass(configs, network, n)
  {
    ChannelsOf(configs, network, n);
    forall i | 0 <= i < n
      ensures Passes(configs, network, i) <==> configs[i].url.None? || SucceedsInTime(configs, network, i)
    {
    }
  }

  lemma {:induction false} FirstAddressed(configs: seq<Config>, n: nat) returns (i: nat)
    requires n <= |configs|
    ensures i <= n && (forall h :: 0 <= h < i ==> configs[h].url.None?) && (i < n ==> configs[i].url.Some?)
  {
    i := 0;
    while i < n && configs[i].url.None?
      invariant i <= n && forall h :: 0 <= h < i ==> configs[h].url.None?
    {
      i := i + 1;
    }
  }

  lemma FailureStops(configs: seq<Config>, network: Network, j: nat)
    requires j < |configs| && !Passes(configs, network, j)
    ensures DeliverEach(configs, network, |configs|).Err?
  {
    DeliveredUpTo(configs, network, |configs|);
  }

  lemma FirstIsHeard(configs: seq<Config>, network: Network, i: nat)
    requires i < |configs| && configs[i].url.Some? && Passes(configs, network, i)
    requires forall h :: 0 <= h < i ==> configs[h].url.None?
    ensures Heard(configs, network, i)
  {
    DeliveredUpTo(configs, network, i + 1);
    assert forall h :: 0 <= h < i + 1 ==> Passes(configs, network, h);
  }

  lemma HalfwayStops(configs: seq<Config>, network: Network)
    requires Halfway(configs, network)
    ensures DeliverEach(configs, network, |configs|).Err?
    ensures exists k :: 0 <= k < |configs| && Heard(configs, network, k)
  {
    var i: nat, j: nat :| i < j < |configs| && FirstOnly(configs, network, i, j);
    FailureStops(configs, network, j);
    FirstIsHeard(configs, network, i);
  }

  lemma StoppedHalfway(configs: seq<Config>, network: Network, k: nat)
    requires k < |configs| && Heard(configs, network, k) && DeliverEach(configs, network, |configs|).Err?
    ensures Halfway(configs, network)
  {
    DeliveredUpTo(configs, network, |configs|);
    DeliveredUpTo(configs, network, k + 1);
    var j: nat :| j < |configs| && !Passes(configs, network, j);
    var i := FirstAddressed(configs, |configs|);
    assert i <= k && Passes(configs, network, i);
    assert FirstOnly(configs, network, i, j);
  }

  lemma SentIfHeardAndDone(run: Run, a: Approval)
    requires SomeHeard(run, a)
    ensures OutcomeOf(run, a) == if DeliverEach(Configs(run.world, a), run.networks(a.id), |Configs(run.world, a)|).Err? then Refused else Sent
  {
    var configs, network := Configs(run.world, a), run.networks(a.id);
    var k :| 0 <= k < |configs| && Heard(configs, network, k);
    var each := DeliverEach(configs, network, |configs|);
    if each.Ok? {
      ChannelsOf(configs, network, |configs|);
      assert ChannelFollows(configs[k], each.value[k]);
    }
  }

  /**
    A tried approval is heard of on some channel while the log shows nothing exactly if the
    first channel with an address answers in time and a later one does not.  It then counts
    as failed.
   */
  lemma PartialDeliveryIsNotLogged(run: Run, audit: seq<Audit>, a: Approval, p: Progress)
    requires !p.aborted && !Expired(a, run.startedAt) && a.id !in RecentlyNotified(audit, run.startedAt)
    ensures var q := Handle(PassOf(run, audit), a, p);
            && (SomeHeard(run, a) && q.audit == p.audit
                <==> Targets(run.world, a) != [] && Halfway(Configs(run.world, a), run.networks(a.id)))
            && (SomeHeard(run, a) && q.audit == p.audit ==> q == p.(failed := p.failed + [a.id]))
  {
    var pass, configs, network := PassOf(run, audit), Configs(run.world, a), run.networks(a.id);
    if Halfway(configs, network) {
      HalfwayStops(configs, network);
    }
    if SomeHeard(run, a) {
      var k: nat :| k < |configs| && Heard(configs, network, k);
      if DeliverEach(configs, network, |configs|).Err? {
        StoppedHalfway(configs, network, k);
      }
      SentIfHeardAndDone(run, a);
      PassFollows(run, audit);
      assert pass.outcome(a) == OutcomeOf(run, a);
      OnlySentIsLogged(pass, a, p);
    }
  }

  lemma OnlySentIsLogged(pass: Pass, a: Approval, p: Progress)
    requires !p.aborted && !Expired(a, pass.startedAt) && a.id !in pass.recent
    ensures Handle(pass, a, p).audit == p.audit <==> pass.outcome(a) != Sent
    ensures pass.outcome(a) == Refused ==> Handle(pass, a, p) == p.(failed := p.failed + [a.id])
  {
    assert |Handle(pass, a, p).audit| == |p.audit| + if pass.outcome(a) == Sent then 1 else 0;
  }

  /** One approval for each id. */
  predicate DistinctIds(approvals: seq<Approval>) {
    forall i, j :: 0 <= i < j < |approvals| ==> approvals[i].id != approvals[j].id
  }

  predicate Mentions(audit: seq<Audit>, id: Id) {
    exists i :: 0 <= i < |audit| && audit[i].action == NOTIFIED && audit[i].resource == Some(id)
  }

  lemma RecentIff(audit: seq<Audit>, now: int, id: Id)
    ensures id in RecentlyNotified(audit, now) <==> Logged(audit, id, now - DAY)
  {
    if id in RecentlyNotified(audit, now) {
      var i :| 0 <= i < |audit| && audit[i].action == NOTIFIED && audit[i].at >= now - DAY && audit[i].resource.Some?
               && audit[i].resource.value == id;
      assert audit[i].resource == Some(id);
    }
  }

  /** A pass adds no mention of an approval it does not deliver. */
  lemma {:induction false} OnlyDeliveriesAreMentioned(pass: Pass, candidates: seq<Approval>, n: nat, p: Progress, id: Id, since: int)
    requires n <= |candidates| && p.delivered == []
    ensures var q := HandleFirst(pass, candidates, n, p);
            id !in q.delivered ==> (Logged(q.audit, id, since) <==> Logged(p.audit, id, since))
  {
    if n > 0 {
      OnlyDeliveriesAreMentioned(pass, candidates, n - 1, p, id, since);
      var before := HandleFirst(pass, candidates, n - 1, p);
      var after := Handle(pass, candidates[n - 1], before);
      assert HandleFirst(pass, candidates, n, p) == after;
      if id !in after.delivered {
        LoggedStays(before.audit, after.audit, id, since);
        if Logged(after.audit, id, since) {
          var i :| 0 <= i < |after.audit| && after.audit[i].action == NOTIFIED && after.audit[i].resource == Some(id)
                   && after.audit[i].at >= since;
          assert i < |before.audit|;
          assert before.audit[i] == after.audit[i];
        }
      }
    }
  }

  /**
    An approval whose delivery failed is not held back: unless someone else logs a
    notification of it, no later run takes it for recently notified.
   */
  lemma FailedIsTriedAgain(run: Run, audit: seq<Audit>, k: nat, next: Run, others: seq<Audit>)
    requires k < |Candidates(run)| && DistinctIds(Candidates(run)) && Tried(PassOf(run, audit), Candidates(run), k)
    requires OutcomeOf(run, Candidates(run)[k]) == Refused
    requires next.startedAt >= run.startedAt && !Mentions(others, Candidates(run)[k].id)
    ensures var id, log := Candidates(run)[k].id, Finish(run, audit).audit + others;
            && id !in RecentlyNotified(log, next.startedAt)
            && (id in Finish(next, log).delivered <==> Offers(next, id))
            && forall m :: 0 <= m < |Candidates(next)| && Candidates(next)[m].id == id ==>
                 (Tried(PassOf(next, log), Candidates(next), m)
                  <==> !Expired(Candidates(next)[m], next.startedAt)
                       && forall j :: 0 <= j < m ==> !Aborts(PassOf(next, log), Candidates(next)[j]))
  {
    var id, after := Candidates(run)[k].id, Finish(run, audit).audit;
    var log, since := after + others, next.startedAt - DAY;
    RefusedIsNotOffered(run, k);
    DeliveredIff(run, audit, id);
    OnlyDeliveriesAreMentioned(PassOf(run, audit), Candidates(run), |Candidates(run)|, Start(run, audit), id, since);
    RecentIff(audit, run.startedAt, id);
    RecentIff(log, next.startedAt, id);
    LoggedInOne(after, others, id, since);
    LoggedSince(audit, id, since, run.startedAt - DAY);
    DeliveredIff(next, log, id);
  }

  lemma RefusedIsNotOffered(run: Run, k: nat)
    requires k < |Candidates(run)| && DistinctIds(Candidates(run)) && OutcomeOf(run, Candidates(run)[k]) == Refused
    ensures !Offers(run, Candidates(run)[k].id)
  {
    RefusedIsNotOfferedAt(run, Candidates(run), k);
  }

  lemma RefusedIsNotOfferedAt(run: Run, candidates: seq<Approval>, k: nat)
    requires candidates == Candidates(run) && k < |candidates| && DistinctIds(candidates)
    requires OutcomeOf(run, candidates[k]) == Refused
    ensures forall m: nat :: m < |candidates| ==> !OffersAt(run, candidates[k].id, m)
  {
    forall m: nat | m < |candidates|
      ensures !OffersAt(run, candidates[k].id, m)
    {
      if m != k {
        assert candidates[m].id != candidates[k].id;
      }
    }
  }

  lemma LoggedInOne(audit: seq<Audit>, others: seq<Audit>, id: Id, since: int)
    ensures Logged(audit + others, id, since) ==> Logged(audit, id, since) || Mentions(others, id)
  {
    var log := audit + others;
    if Logged(log, id, since) {
      var i :| 0 <= i < |log| && log[i].action == NOTIFIED && log[i].resource == Some(id) && log[i].at >= since;
      if i < |audit| {
        assert log[i] == audit[i];
      } else {
        assert log[i] == others[i - |audit|];
      }
    }
  }

  lemma LoggedSince(audit: seq<Audit>, id: Id, since: int, earlier: int)
    requires earlier <= since
    ensures Logged(audit, id, since) ==> Logged(audit, id, earlier)
  {
  }

  // ----- one approval, two channels -----

  const BOTH := Policy("active", "webhook", "all", None, 1)
  const CHANNEL := Config("webhook", Some("hook"), 1)

  function TwoChannels(): World {
    World(map[0 := Group("approvers", "active", ["approver"])], [BOTH, BOTH], Setup(Some("hook"), (name: string) => None, (text: string) => Some(0)))
  }

  const WAITING := Approval(0, "pending", "high", 0, None, Obj(map["approver_group_id" := Str("approvers")]))

  /** A run over one pending approval that is to be notified on two channels. */
  function RunOverTwo(network: Network): Run {
    Run(TwoChannels(), [WAITING], 0, 1, (id: Id) => network, (id: Id) => 0, (id: Id) => true)
  }

  lemma TwoConfigs()
    ensures Configs(TwoChannels(), WAITING) == [CHANNEL, CHANNEL] && Targets(TwoChannels(), WAITING) == ["approver"]
  {
    var world := TwoChannels();
    FilterAll((p: Policy) => p.status == "active", world.policies);
    FilterAll((p: Policy) => Matches(p, WAITING), world.policies);
    assert PolicyConfig(world.setup, BOTH) == CHANNEL;
    assert Get(WAITING.evidence, "approver_group_id") == Some(Str("approvers"));
    assert DelegatedGroup(world.setup, WAITING) == Some(0);
  }

  lemma OneCandidate(network: Network)
    ensures Candidates(RunOverTwo(network)) == [WAITING] && !Expired(WAITING, 0)
    ensures RecentlyNotified([], 0) == {}
  {
    FilterAll((a: Approval) => a.status == "pending", [WAITING]);
  }

  lemma FinishOfOne(run: Run)
    requires Candidates(run) == [WAITING]
    ensures Finish(run, []) == Handle(PassOf(run, []), WAITING, Start(run, []))
  {
    var pass, start := PassOf(run, []), Start(run, []);
    assert HandleFirst(pass, [WAITING], 1, start) == Handle(pass, WAITING, HandleFirst(pass, [WAITING], 0, start));
  }

  /** With only the first of two channels answering, the approvers are told, and the log says nothing. */
  lemma PartialDeliveryHappens()
    ensures var run := RunOverTwo(HalfAnswering());
            SomeHeard(run, WAITING) && Finish(run, []).audit == [] && Finish(run, []).failed == [WAITING.id]
  {
    var network := HalfAnswering();
    var run, configs := RunOverTwo(network), [CHANNEL, CHANNEL];
    TwoConfigs();
    OneCandidate(network);
    assert network(0, 1);
    assert FirstOnly(configs, network, 0, 1);
    assert Halfway(configs, network);
    PartialDeliveryIsNotLogged(run, [], WAITING, Start(run, []));
    FinishOfOne(run);
  }

  lemma SentIfAllAnswer(run: Run, a: Approval, configs: seq<Config>, network: Network)
    requires configs == Configs(run.world, a) && network == run.networks(a.id) && Targets(run.world, a) != []
    requires configs != [] && configs[0].url.Some? && forall i :: 0 <= i < |configs| ==> SucceedsInTime(configs, network, i)
    ensures OutcomeOf(run, a) == Sent
  {
    EveryChannelAnswers(configs, network);
    SentIfHeardAndDone(run, a);
  }

  lemma EveryChannelAnswers(configs: seq<Config>, network: Network)
    requires configs != [] && configs[0].url.Some? && forall i :: 0 <= i < |configs| ==> SucceedsInTime(configs, network, i)
    ensures DeliverEach(configs, network, |configs|).Ok? && Heard(configs, network, 0)
  {
    DeliveredUpTo(configs, network, |configs|);
    FirstIsHeard(configs, network, 0);
  }

  /** A network that answers every attempt, and one that answers on the first channel alone. */
  function Answering(): Network {
    (channel: nat, attempt: nat) => true
  }

  function HalfAnswering(): Network {
    (channel: nat, attempt: nat) => channel == 0
  }

  lemma BothAnswer(run: Run)
    requires run == RunOverTwo(Answering())
    ensures OutcomeOf(run, WAITING) == Sent
  {
    var network, configs := Answering(), [CHANNEL, CHANNEL];
    TwoConfigs();
    forall i | 0 <= i < |configs|
      ensures SucceedsInTime(configs, network, i)
    {
      assert network(i, 1);
    }
    SentIfAllAnswer(run, WAITING, configs, network);
  }

  /** With both answering, the approval is delivered. */
  lemma FullDeliveryIsOffered()
    ensures Offers(RunOverTwo(Answering()), WAITING.id)
  {
    var run := RunOverTwo(Answering());
    OneCandidate(Answering());
    BothAnswer(run);
    assert OffersAt(run, WAITING.id, 0);
  }

  lemma RefusedIfHalfway(run: Run, a: Approval, configs: seq<Config>, network: Network)
    requires configs == Configs(run.world, a) && network == run.networks(a.id) && Targets(run.world, a) != []
    requires Halfway(configs, network)
    ensures OutcomeOf(run, a) == Refused
  {
    HalfwayStops(configs, network);
    SentIfHeardAndDone(run, a);
  }

  lemma HalfIsRefused(run: Run)
    requires run == RunOverTwo(HalfAnswering())
    ensures OutcomeOf(run, WAITING) == Refused
  {
    var network, configs := HalfAnswering(), [CHANNEL, CHANNEL];
    TwoConfigs();
    assert network(0, 1);
    assert FirstOnly(configs, network, 0, 1);
    RefusedIfHalfway(run, WAITING, configs, network);
  }

  /** The next run, with both channels answering, tells the approvers of the first channel again. */
  lemma PartialDeliveryIsRepeated()
    ensures var first, next := RunOverTwo(HalfAnswering()), RunOverTwo(Answering());
            SomeHeard(first, WAITING) && WAITING.id in Finish(next, Finish(first, []).audit).delivered
  {
    var first, next := RunOverTwo(HalfAnswering()), RunOverTwo(Answering());
    PartialDeliveryHappens();
    FullDeliveryIsOffered();
    OneCandidate(HalfAnswering());
    HalfIsRefused(first);
    FailedIsTriedAgain(first, [], 0, next, []);
    assert Finish(first, []).audit + [] == Finish(first, []).audit;
  }
}
