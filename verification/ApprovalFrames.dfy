/** What each step of the approval protocol does to times: the clock, a token's expiry, and when things were recorded. */
module ApprovalFrames {
  import opened Wrappers
  import opened ApprovalProtocol
  import opened ApprovalSafety

  // ----- what a step can change -----

  datatype Aspect = History | Validations | Checks

  /**
    The clock, the tokens and their history stand still; a run that holds a validated token
    held it before; a handler's check was made before or just now.
   */
  ghost predicate Keeps(s: State, later: State, run: Id, decider: Id, aspect: Aspect) {
    match aspect
    case History =>
      later.now == s.now && later.tokens == s.tokens && later.issues == s.issues && later.consumptions == s.consumptions
    case Validations =>
      run in later.runs && later.runs[run].pc.Validated? ==> run in s.runs && s.runs[run].pc == later.runs[run].pc
    case Checks =>
      decider in later.deciders ==>
        later.deciders[decider].checkedAt == if decider in s.deciders then s.deciders[decider].checkedAt else s.now
  }

  ghost predicate Quiet(s: State, later: State, run: Id, decider: Id) {
    forall aspect {:trigger Keeps(s, later, run, decider, aspect)} :: Keeps(s, later, run, decider, aspect)
  }

  /** A handler's next step, after changes that do not matter here. */
  lemma AdvanceIsQuiet(s: State, between: State, d: Id, pc: DeciderPc, run: Id, decider: Id)
    requires d in s.deciders && between.now == s.now && between.tokens == s.tokens && between.issues == s.issues
    requires between.consumptions == s.consumptions && between.runs == s.runs && between.deciders == s.deciders
    ensures Quiet(s, SetDecider(between, d, pc), run, decider)
  {
  }

  lemma OpenCallIsQuiet(s: State, c: Id, call: ToolCall, run: Id, decider: Id)
    ensures Quiet(s, DoOpenCall(s, c, call), run, decider)
  {
  }

  lemma OpenApprovalIsQuiet(s: State, a: Id, request: Approval, run: Id, decider: Id)
    ensures Quiet(s, DoOpenApproval(s, a, request), run, decider)
  {
  }

  lemma ModifyArgsIsQuiet(bind: Binder, s: State, a: Id, args: string, run: Id, decider: Id)
    ensures Quiet(s, DoModifyArgs(bind, s, a, args), run, decider)
  {
  }

  lemma OverwriteArgsIsQuiet(s: State, c: Id, args: string, run: Id, decider: Id)
    ensures Quiet(s, DoOverwriteArgs(s, c, args), run, decider)
  {
  }

  lemma DeclineIsQuiet(s: State, a: Id, decision: ApprovalStatus, run: Id, decider: Id)
    ensures Quiet(s, DoDecline(s, a, decision), run, decider)
  {
  }

  lemma RequestsAreQuiet(bind: Binder, s: State, step: Step, run: Id, decider: Id)
    requires step.OpenCall? || step.OpenApproval? || step.ModifyArgs? || step.OverwriteArgs? || step.Decline?
    ensures Quiet(s, Do(bind, s, step), run, decider)
  {
    match step {
      case OpenCall(c, call) => OpenCallIsQuiet(s, c, call, run, decider);
      case OpenApproval(a, request) => OpenApprovalIsQuiet(s, a, request, run, decider);
      case ModifyArgs(a, args) => ModifyArgsIsQuiet(bind, s, a, args, run, decider);
      case OverwriteArgs(c, args) => OverwriteArgsIsQuiet(s, c, args, run, decider);
      case Decline(a, decision) => DeclineIsQuiet(s, a, decision, run, decider);
    }
  }

  lemma CheckApprovalIsQuiet(s: State, d: Id, a: Id, run: Id, decider: Id)
    ensures Quiet(s, DoCheckApproval(s, d, a), run, decider)
  {
  }

  lemma DecideApprovedIsQuiet(s: State, d: Id, run: Id, decider: Id)
    ensures Quiet(s, DoDecideApproved(s, d), run, decider)
  {
    if DeciderAt(s, d, Checked) {
      var a := s.deciders[d].approval;
      if a !in s.approvals || s.approvals[a].status != Pending {
        AdvanceIsQuiet(s, s, d, Aborted, run, decider);
      } else {
        AdvanceIsQuiet(s, s.(approvals := s.approvals[a := s.approvals[a].(status := Approved)], winners := s.winners[a := d]),
                       d, Decided, run, decider);
      }
    }
  }

  lemma ReadCallIsQuiet(s: State, d: Id, run: Id, decider: Id)
    ensures Quiet(s, DoReadCall(s, d), run, decider)
  {
    if DeciderAt(s, d, Decided) && s.deciders[d].approval in s.approvals {
      var a := s.approvals[s.deciders[d].approval];
      if a.call.None? {
        AdvanceIsQuiet(s, s, d, ReadyToEnqueue, run, decider);
      } else if a.call.value !in s.calls {
        AdvanceIsQuiet(s, s, d, Aborted, run, decider);
      } else if s.calls[a.call.value].grant.None? {
        AdvanceIsQuiet(s, s, d, ReadyToEnqueue, run, decider);
      } else {
        AdvanceIsQuiet(s, s, d, HaveCall(s.calls[a.call.value]), run, decider);
      }
    }
  }

  lemma ReadGrantIsQuiet(s: State, d: Id, run: Id, decider: Id)
    ensures Quiet(s, DoReadGrant(s, d), run, decider)
  {
    if d in s.deciders && s.deciders[d].pc.HaveCall? {
      var call := s.deciders[d].pc.call;
      if call.grant.None? || call.grant.value !in s.grants {
        AdvanceIsQuiet(s, s, d, Aborted, run, decider);
      } else if RequiresToken(s.grants[call.grant.value], call.tool) {
        AdvanceIsQuiet(s, s, d, HaveGrant(call, s.grants[call.grant.value]), run, decider);
      } else {
        AdvanceIsQuiet(s, s, d, ReadyToEnqueue, run, decider);
      }
    }
  }

  lemma LookupTokenIsQuiet(s: State, d: Id, run: Id, decider: Id)
    ensures Quiet(s, DoLookupToken(s, d), run, decider)
  {
    if d in s.deciders && s.deciders[d].pc.HaveGrant? {
      if exists t :: t in s.tokens && TokenFor(s, s.deciders[d].approval, t) {
        AdvanceIsQuiet(s, s, d, ReadyToEnqueue, run, decider);
      } else {
        AdvanceIsQuiet(s, s, d, NoToken(s.deciders[d].pc.call), run, decider);
      }
    }
  }

  lemma EnqueueIsQuiet(s: State, d: Id, j: Id, m: nat, run: Id, decider: Id)
    ensures Quiet(s, DoEnqueue(s, d, j, m), run, decider)
  {
    if DeciderAt(s, d, ReadyToEnqueue) && j !in s.jobs && s.deciders[d].approval in s.approvals {
      var a := s.approvals[s.deciders[d].approval];
      if a.call.None? {
        AdvanceIsQuiet(s, s, d, Finished, run, decider);
      } else if a.call.value !in s.calls {
        AdvanceIsQuiet(s, s, d, Aborted, run, decider);
      } else {
        var job := NewJob(s.deciders[d].approval, a.call.value, s.calls[a.call.value].tool, m);
        AdvanceIsQuiet(s, s.(jobs := s.jobs[j := job]), d, Finished, run, decider);
      }
    }
  }

  lemma DecidingIsQuiet(bind: Binder, s: State, step: Step, run: Id, decider: Id)
    requires step.CheckApproval? || step.DecideApproved? || step.ReadCall? || step.ReadGrant? || step.LookupToken? || step.Enqueue?
    ensures Quiet(s, Do(bind, s, step), run, decider)
  {
    match step {
      case CheckApproval(d, a) => CheckApprovalIsQuiet(s, d, a, run, decider);
      case DecideApproved(d) => DecideApprovedIsQuiet(s, d, run, decider);
      case ReadCall(d) => ReadCallIsQuiet(s, d, run, decider);
      case ReadGrant(d) => ReadGrantIsQuiet(s, d, run, decider);
      case LookupToken(d) => LookupTokenIsQuiet(s, d, run, decider);
      case Enqueue(d, j, m) => EnqueueIsQuiet(s, d, j, m, run, decider);
    }
  }

  lemma StartJobIsQuiet(s: State, j: Id, r: Id, w: string, run: Id, decider: Id)
    ensures Quiet(s, DoStartJob(s, j, r, w), run, decider)
  {
  }

  lemma RecoverExpiredIsQuiet(s: State, j: Id, r: Id, w: string, run: Id, decider: Id)
    ensures Quiet(s, DoRecoverExpired(s, j, r, w), run, decider)
  {
  }

  lemma ResumeClosingIsQuiet(s: State, j: Id, r: Id, w: string, run: Id, decider: Id)
    ensures Quiet(s, DoResumeClosing(s, j, r, w), run, decider)
  {
  }

  lemma CancelJobIsQuiet(s: State, j: Id, run: Id, decider: Id)
    ensures Quiet(s, DoCancelJob(s, j), run, decider)
  {
  }

  lemma AdvanceCancelIsQuiet(s: State, j: Id, ack: bool, run: Id, decider: Id)
    ensures Quiet(s, DoAdvanceCancel(s, j, ack), run, decider)
  {
  }

  lemma RenewLeaseIsQuiet(s: State, r: Id, lease: Time, run: Id, decider: Id)
    ensures Quiet(s, DoRenewLease(s, r, lease), run, decider)
  {
  }

  lemma ClaimingIsQuiet(bind: Binder, s: State, step: Step, run: Id, decider: Id)
    requires step.StartJob? || step.RecoverExpired? || step.ResumeClosing? || step.CancelJob? || step.AdvanceCancel? || step.RenewLease?
    ensures Quiet(s, Do(bind, s, step), run, decider)
  {
    match step {
      case StartJob(j, r, w) => StartJobIsQuiet(s, j, r, w, run, decider);
      case RecoverExpired(j, r, w) => RecoverExpiredIsQuiet(s, j, r, w, run, decider);
      case ResumeClosing(j, r, w) => ResumeClosingIsQuiet(s, j, r, w, run, decider);
      case CancelJob(j) => CancelJobIsQuiet(s, j, run, decider);
      case AdvanceCancel(j, ack) => AdvanceCancelIsQuiet(s, j, ack, run, decider);
      case RenewLease(r, lease) => RenewLeaseIsQuiet(s, r, lease, run, decider);
    }
  }

  lemma LoadApprovalIsQuiet(s: State, r: Id, run: Id, decider: Id)
    ensures Quiet(s, DoLoadApproval(s, r), run, decider)
  {
  }

  lemma LoadCallIsQuiet(s: State, r: Id, run: Id, decider: Id)
    ensures Quiet(s, DoLoadCall(s, r), run, decider)
  {
  }

  lemma PrecheckIsQuiet(bind: Binder, s: State, r: Id, t: Id, denied: bool, run: Id, decider: Id)
    ensures Quiet(s, DoPrecheck(bind, s, r, t, denied), run, decider)
  {
  }

  lemma FindSpentIsQuiet(s: State, r: Id, t: Id, run: Id, decider: Id)
    ensures Quiet(s, DoFindSpent(s, r, t), run, decider)
  {
  }

  lemma BeginExecutingIsQuiet(s: State, r: Id, run: Id, decider: Id)
    ensures Quiet(s, DoBeginExecuting(s, r), run, decider)
  {
  }

  lemma ReadyingIsQuiet(bind: Binder, s: State, step: Step, run: Id, decider: Id)
    requires step.LoadApproval? || step.LoadCall? || step.Precheck? || step.FindSpent? || step.BeginExecuting?
    ensures Quiet(s, Do(bind, s, step), run, decider)
  {
    match step {
      case LoadApproval(r) => LoadApprovalIsQuiet(s, r, run, decider);
      case LoadCall(r) => LoadCallIsQuiet(s, r, run, decider);
      case Precheck(r, t, denied) => PrecheckIsQuiet(bind, s, r, t, denied, run, decider);
      case FindSpent(r, t) => FindSpentIsQuiet(s, r, t, run, decider);
      case BeginExecuting(r) => BeginExecutingIsQuiet(s, r, run, decider);
    }
  }

  lemma PerformWriteIsQuiet(s: State, r: Id, run: Id, decider: Id)
    ensures Quiet(s, DoPerformWrite(s, r), run, decider)
  {
  }

  lemma PerformOtherIsQuiet(s: State, r: Id, run: Id, decider: Id)
    ensures Quiet(s, DoPerformOther(s, r), run, decider)
  {
  }

  lemma RecordToolResultIsQuiet(s: State, r: Id, run: Id, decider: Id)
    ensures Quiet(s, DoRecordToolResult(s, r), run, decider)
  {
  }

  lemma RecordToolErrorIsQuiet(s: State, r: Id, run: Id, decider: Id)
    ensures Quiet(s, DoRecordToolError(s, r), run, decider)
  {
  }

  lemma PerformingIsQuiet(bind: Binder, s: State, step: Step, run: Id, decider: Id)
    requires step.PerformWrite? || step.PerformOther? || step.RecordToolResult? || step.RecordToolError?
    ensures Quiet(s, Do(bind, s, step), run, decider)
  {
    match step {
      case PerformWrite(r) => PerformWriteIsQuiet(s, r, run, decider);
      case PerformOther(r) => PerformOtherIsQuiet(s, r, run, decider);
      case RecordToolResult(r) => RecordToolResultIsQuiet(s, r, run, decider);
      case RecordToolError(r) => RecordToolErrorIsQuiet(s, r, run, decider);
    }
  }

  lemma FailPrecommitIsQuiet(s: State, r: Id, run: Id, decider: Id)
    ensures Quiet(s, DoFailPrecommit(s, r), run, decider)
  {
  }

  lemma FailRetrySafeIsQuiet(s: State, r: Id, run: Id, decider: Id)
    ensures Quiet(s, DoFailRetrySafe(s, r), run, decider)
  {
  }

  lemma FailKnownIsQuiet(s: State, r: Id, run: Id, decider: Id)
    ensures Quiet(s, DoFailKnown(s, r), run, decider)
  {
  }

  lemma FailUnknownIsQuiet(s: State, r: Id, run: Id, decider: Id)
    ensures Quiet(s, DoFailUnknown(s, r), run, decider)
  {
  }

  lemma CompleteRunIsQuiet(s: State, r: Id, run: Id, decider: Id)
    ensures Quiet(s, DoCompleteRun(s, r), run, decider)
  {
  }

  lemma FailingIsQuiet(bind: Binder, s: State, step: Step, run: Id, decider: Id)
    requires step.FailPrecommit? || step.FailRetrySafe? || step.FailKnown? || step.FailUnknown? || step.CompleteRun?
    ensures Quiet(s, Do(bind, s, step), run, decider)
  {
    match step {
      case FailPrecommit(r) => FailPrecommitIsQuiet(s, r, run, decider);
      case FailRetrySafe(r) => FailRetrySafeIsQuiet(s, r, run, decider);
      case FailKnown(r) => FailKnownIsQuiet(s, r, run, decider);
      case FailUnknown(r) => FailUnknownIsQuiet(s, r, run, decider);
      case CompleteRun(r) => CompleteRunIsQuiet(s, r, run, decider);
    }
  }

  lemma ReconcileErrorIsQuiet(s: State, r: Id, run: Id, decider: Id)
    ensures Quiet(s, DoReconcileError(s, r), run, decider)
  {
  }

  lemma ReconcileUnknownIsQuiet(s: State, r: Id, run: Id, decider: Id)
    ensures Quiet(s, DoReconcileUnknown(s, r), run, decider)
  {
  }

  lemma PrepareTailIsQuiet(s: State, r: Id, run: Id, decider: Id)
    ensures Quiet(s, DoPrepareTail(s, r), run, decider)
  {
  }

  lemma FinishClosingIsQuiet(s: State, r: Id, run: Id, decider: Id)
    ensures Quiet(s, DoFinishClosing(s, r), run, decider)
  {
  }

  lemma ClosingIsQuiet(bind: Binder, s: State, step: Step, run: Id, decider: Id)
    requires step.ReconcileError? || step.ReconcileUnknown? || step.PrepareTail? || step.FinishClosing?
    ensures Quiet(s, Do(bind, s, step), run, decider)
  {
    match step {
      case ReconcileError(r) => ReconcileErrorIsQuiet(s, r, run, decider);
      case ReconcileUnknown(r) => ReconcileUnknownIsQuiet(s, r, run, decider);
      case PrepareTail(r) => PrepareTailIsQuiet(s, r, run, decider);
      case FinishClosing(r) => FinishClosingIsQuiet(s, r, run, decider);
    }
  }

  /** The four steps that move the clock or touch a token. */
  predicate Moving(step: Step) {
    step.Tick? || step.CreateToken? || step.ValidateToken? || step.ConsumeToken?
  }

  lemma OthersAreQuiet(bind: Binder, s: State, step: Step, run: Id, decider: Id)
    requires !Moving(step)
    ensures Quiet(s, Do(bind, s, step), run, decider)
  {
    if step.OpenCall? || step.OpenApproval? || step.ModifyArgs? || step.OverwriteArgs? || step.Decline? {
      RequestsAreQuiet(bind, s, step, run, decider);
    } else if step.CheckApproval? || step.DecideApproved? || step.ReadCall? || step.ReadGrant? || step.LookupToken? || step.Enqueue? {
      DecidingIsQuiet(bind, s, step, run, decider);
    } else if step.StartJob? || step.RecoverExpired? || step.ResumeClosing? || step.CancelJob? || step.AdvanceCancel? || step.RenewLease? {
      ClaimingIsQuiet(bind, s, step, run, decider);
    } else if step.LoadApproval? || step.LoadCall? || step.Precheck? || step.FindSpent? || step.BeginExecuting? {
      ReadyingIsQuiet(bind, s, step, run, decider);
    } else if step.PerformWrite? || step.PerformOther? || step.RecordToolResult? || step.RecordToolError? {
      PerformingIsQuiet(bind, s, step, run, decider);
    } else if step.FailPrecommit? || step.FailRetrySafe? || step.FailKnown? || step.FailUnknown? || step.CompleteRun? {
      FailingIsQuiet(bind, s, step, run, decider);
    } else if step.ReconcileError? || step.ReconcileUnknown? || step.PrepareTail? || step.FinishClosing? {
      ClosingIsQuiet(bind, s, step, run, decider);
    } else {
      GrantsAreQuiet(bind, s, step.grants, run, decider);
    }
  }

  lemma GrantsAreQuiet(bind: Binder, s: State, grants: map<Id, Grant>, run: Id, decider: Id)
    ensures Quiet(s, Do(bind, s, ChangeGrants(grants)), run, decider)
  {
    forall aspect
      ensures Keeps(s, s.(grants := grants), run, decider, aspect)
    {
    }
  }

  lemma OpenQuiet(s: State, later: State, run: Id, decider: Id)
    requires Quiet(s, later, run, decider)
    ensures Keeps(s, later, run, decider, History) && Keeps(s, later, run, decider, Validations) && Keeps(s, later, run, decider, Checks)
  {
  }

  // ----- what each step does to times -----

  function Ticks(step: Step): nat {
    if step.Tick? then step.elapsed else 0
  }

  /** A consume step that finds its run with a validated token. */
  predicate Consuming(s: State, step: Step) {
    step.ConsumeToken? && step.run in s.runs && s.runs[step.run].pc.Validated? && s.runs[step.run].pc.token in s.tokens
  }

  function ConsumptionBy(s: State, step: Step): Consumption
    requires Consuming(s, step)
  {
    var pc := s.runs[step.run].pc;
    Consumption(pc.token, step.run, pc.validatedAt, s.now, pc.call.args)
  }

  /** A validation step that names this run and this token, which exists. */
  predicate Validating(s: State, step: Step, run: Id, t: Id) {
    step.ValidateToken? && step.run == run && step.token == t && t in s.tokens
  }

  /** A token keeps its expiry and the record of its issue. */
  ghost predicate TokenStays(s: State, later: State, t: Id) {
    t in s.tokens ==>
      && t in later.tokens && later.tokens[t].expiresAt == s.tokens[t].expiresAt
      && (t in s.issues ==> t in later.issues && later.issues[t] == s.issues[t])
  }

  lemma TickIs(bind: Binder, s: State, elapsed: nat)
    ensures Do(bind, s, Tick(elapsed)) == s.(now := s.now + elapsed)
  {
  }

  lemma CreateIs(bind: Binder, s: State, d: Id, t: Id)
    ensures Do(bind, s, CreateToken(d, t)) == DoCreateToken(bind, s, d, t)
  {
  }

  lemma ValidateIs(bind: Binder, s: State, r: Id, t: Id, denied: bool)
    ensures Do(bind, s, ValidateToken(r, t, denied)) == DoValidateToken(bind, s, r, t, denied)
  {
  }

  lemma ConsumeIs(bind: Binder, s: State, r: Id)
    ensures Do(bind, s, ConsumeToken(r)) == DoConsumeToken(s, r)
  {
  }

  /** Every step: what it does to the clock, one token, the consumptions, one run and one handler's check. */
  ghost predicate Timed(s: State, step: Step, later: State, t: Id, run: Id, decider: Id) {
    && later.now == s.now + Ticks(step)
    && TokenStays(s, later, t)
    && later.consumptions == (if Consuming(s, step) then s.consumptions + [ConsumptionBy(s, step)] else s.consumptions)
    && (run in later.runs && later.runs[run].pc.Validated? ==>
          || (run in s.runs && s.runs[run].pc == later.runs[run].pc)
          || (Validating(s, step, run, later.runs[run].pc.token) && later.runs[run].pc.validatedAt == s.now))
    && (decider in later.deciders ==>
          later.deciders[decider].checkedAt == if decider in s.deciders then s.deciders[decider].checkedAt else s.now)
    && (t in later.issues ==>
          || (t in s.issues && s.issues[t] == later.issues[t])
          || (step.CreateToken? && step.decider in s.deciders && s.deciders[step.decider].checkedAt == later.issues[t].checkedAt))
  }

  lemma CreateTimes(bind: Binder, s: State, d: Id, u: Id, t: Id, run: Id, decider: Id)
    ensures Timed(s, CreateToken(d, u), DoCreateToken(bind, s, d, u), t, run, decider)
  {
    if d in s.deciders && s.deciders[d].pc.NoToken? && u !in s.tokens {
      var call, a := s.deciders[d].pc.call, s.deciders[d].approval;
      match MatchingBinding(bind, call)
      case None => AdvanceTimes(s, d, Aborted, CreateToken(d, u), t, run, decider);
      case Some(b) =>
        if a !in s.approvals || s.approvals[a].call.None? || call.grant.None? {
          AdvanceTimes(s, d, Aborted, CreateToken(d, u), t, run, decider);
        } else {
          NewTokenTimes(s, d, u, IssuedToken(s, a, s.approvals[a], call, b), t, run, decider);
        }
    }
  }

  lemma AdvanceTimes(s: State, d: Id, pc: DeciderPc, step: Step, t: Id, run: Id, decider: Id)
    requires d in s.deciders && step.CreateToken?
    ensures Timed(s, step, SetDecider(s, d, pc), t, run, decider)
  {
  }

  lemma NewTokenTimes(s: State, d: Id, u: Id, token: Token, t: Id, run: Id, decider: Id)
    requires d in s.deciders && s.deciders[d].pc.NoToken? && u !in s.tokens
    ensures var issue := Issue(d, s.deciders[d].checkedAt, s.deciders[d].pc.call);
            Timed(s, CreateToken(d, u), SetDecider(s.(tokens := s.tokens[u := token], issues := s.issues[u := issue]), d, ReadyToEnqueue),
                    t, run, decider)
  {
  }

  lemma ValidateTimes(bind: Binder, s: State, r: Id, u: Id, denied: bool, t: Id, run: Id, decider: Id)
    ensures Timed(s, ValidateToken(r, u, denied), DoValidateToken(bind, s, r, u, denied), t, run, decider)
  {
  }

  lemma ConsumeTimes(s: State, r: Id, t: Id, run: Id, decider: Id)
    ensures Timed(s, ConsumeToken(r), DoConsumeToken(s, r), t, run, decider)
  {
    if Consuming(s, ConsumeToken(r)) {
      var pc := s.runs[r].pc;
      SpendTimes(s, r, pc, ConsumedToken(s.tokens[pc.token], s.now), t, run, decider);
    }
  }

  lemma SpendTimes(s: State, r: Id, pc: RunPc, spent: Token, t: Id, run: Id, decider: Id)
    requires Consuming(s, ConsumeToken(r)) && pc == s.runs[r].pc && spent.expiresAt == s.tokens[pc.token].expiresAt
    ensures var c := ConsumptionBy(s, ConsumeToken(r));
            Timed(s, ConsumeToken(r),
                  SetRun(s.(tokens := s.tokens[pc.token := spent], consumptions := s.consumptions + [c]), r, Spent(pc.call, pc.token)),
                  t, run, decider)
  {
  }

  lemma StepTimes(bind: Binder, s: State, step: Step, t: Id, run: Id, decider: Id)
    ensures Timed(s, step, Do(bind, s, step), t, run, decider)
  {
    if !Moving(step) {
      OthersAreQuiet(bind, s, step, run, decider);
      QuietTimes(s, step, Do(bind, s, step), t, run, decider);
    } else if step.CreateToken? {
      CreateIs(bind, s, step.decider, step.token);
      CreateTimes(bind, s, step.decider, step.token, t, run, decider);
    } else if step.ValidateToken? {
      ValidateIs(bind, s, step.run, step.token, step.denied);
      ValidateTimes(bind, s, step.run, step.token, step.denied, t, run, decider);
    } else if step.ConsumeToken? {
      ConsumeIs(bind, s, step.run);
      ConsumeTimes(s, step.run, t, run, decider);
    } else {
      TickIs(bind, s, step.elapsed);
    }
  }

  lemma QuietTimes(s: State, step: Step, later: State, t: Id, run: Id, decider: Id)
    requires !Moving(step) && Quiet(s, later, run, decider)
    ensures Timed(s, step, later, t, run, decider)
  {
    OpenQuiet(s, later, run, decider);
  }
}
