/**
  What every interleaving of the approval protocol keeps.

  The store's consume call does not check that the token is still issued, so single
  use is not a fact about that call.  It follows from the chain proved here: an
  approval is won by one decider, which creates at most one token and one job; a job
  whose tool consumes a token passes the commit point at most once; and only the run
  that passed it can validate and consume.
 */
module ApprovalSafety {
  import opened Wrappers
  import opened ApprovalProtocol

  // ----- the invariant -----

  ghost predicate Won(pc: DeciderPc) {
    pc.Decided? || pc.HaveCall? || pc.HaveGrant? || pc.NoToken? || pc.ReadyToEnqueue? || pc.Finished?
  }

  /** Handlers still on the way to creating a token. */
  ghost predicate BeforeToken(pc: DeciderPc) {
    pc.Decided? || pc.HaveCall? || pc.HaveGrant? || pc.NoToken?
  }

  ghost predicate WinnerOk(s: State, a: Id)
    requires a in s.winners
  {
    && a in s.approvals && s.approvals[a].status == Approved
    && s.winners[a] in s.deciders
    && s.deciders[s.winners[a]].approval == a
    && s.deciders[s.winners[a]].pc != Checked
  }

  ghost predicate DeciderOk(s: State, d: Id)
    requires d in s.deciders
  {
    var decider := s.deciders[d];
    && decider.approval in s.approvals
    && !PastExpiry(s.approvals[decider.approval].expiresAt, decider.checkedAt)
    && (Won(decider.pc) ==> decider.approval in s.winners && s.winners[decider.approval] == d)
  }

  ghost predicate DecidersOk(s: State) {
    && (forall a :: a in s.winners ==> WinnerOk(s, a))
    && (forall d :: d in s.deciders ==> DeciderOk(s, d))
  }

  ghost predicate TokenOk(bind: Binder, s: State, t: Id)
    requires t in s.tokens
  {
    var token := s.tokens[t];
    && token.approval in s.winners && WinnerOk(s, token.approval)
    && !BeforeToken(s.deciders[s.winners[token.approval]].pc)
    && t in s.issues
    && s.issues[t].decider == s.winners[token.approval]
    && s.issues[t].checkedAt == s.deciders[s.winners[token.approval]].checkedAt
    && s.issues[t].call.hash == Some(token.hash)
    && s.issues[t].call.target == token.target
    && bind(s.issues[t].call.tool, s.issues[t].call.args) == Some(Binding(token.hash, token.target))
    && (s.approvals[token.approval].expiresAt.Some? ==> token.expiresAt == s.approvals[token.approval].expiresAt.value)
  }

  ghost predicate TokensOk(bind: Binder, s: State) {
    && (forall t :: t in s.tokens ==> TokenOk(bind, s, t))
    && (forall t, u :: t in s.tokens && u in s.tokens && s.tokens[t].approval == s.tokens[u].approval ==> t == u)
  }

  ghost predicate JobOk(s: State, j: Id)
    requires j in s.jobs
  {
    && s.jobs[j].approval in s.winners && WinnerOk(s, s.jobs[j].approval)
    && s.deciders[s.winners[s.jobs[j].approval]].pc == Finished
    && s.jobs[j].call in s.calls && s.calls[s.jobs[j].call].tool == s.jobs[j].tool
  }

  ghost predicate OneJobPerApproval(s: State) {
    forall j, k :: j in s.jobs && k in s.jobs && s.jobs[j].approval == s.jobs[k].approval ==> j == k
  }

  ghost predicate JobsOk(s: State) {
    && (forall j :: j in s.jobs ==> JobOk(s, j))
    && OneJobPerApproval(s)
    && (forall j :: j in s.commits ==> j in s.jobs)
  }

  /** A run that has the right to consume but has not done so yet. */
  ghost predicate Live(pc: RunPc) {
    (pc.Committed? || pc.Validated?) && ConsumesToken(pc.call.tool)
  }

  /** A job that will never be claimed again. */
  ghost predicate Sealed(job: Job) {
    || job.status == Executing
    || (job.status == Finalizing && !job.failed)
    || job.status == Completed
    || job.status == OutcomeUnknown
  }

  ghost predicate HoldsCall(pc: RunPc) {
    pc.Loaded? || pc.Prechecked? || pc.Committed? || pc.Validated? || pc.Spent?
  }

  ghost predicate RunOk(s: State, r: Id)
    requires r in s.runs
  {
    var run := s.runs[r];
    && run.job in s.jobs
    && (HoldsCall(run.pc) ==> run.pc.call.tool == s.jobs[run.job].tool)
    && (run.pc.ErrorRecorded? ==> !ConsumesToken(s.jobs[run.job].tool))
    && (Live(run.pc) ==> run.job in s.commits && s.commits[run.job] == r)
  }

  /** What a run knows once a token has been accepted for it. */
  ghost predicate Bound(bind: Binder, s: State, call: ToolCall, t: Id) {
    && ConsumesToken(call.tool)
    && t in s.tokens && s.tokens[t].tool == call.tool
    && bind(call.tool, call.args) == Some(Binding(s.tokens[t].hash, s.tokens[t].target))
  }

  ghost predicate ValidatedOk(bind: Binder, s: State, approval: Id, pc: RunPc)
    requires pc.Validated?
  {
    && Bound(bind, s, pc.call, pc.token)
    && s.tokens[pc.token].approval == approval
    && s.tokens[pc.token].status == Issued
    && pc.validatedAt <= s.now
    && pc.validatedAt < s.tokens[pc.token].expiresAt
  }

  ghost predicate RunsOk(bind: Binder, s: State) {
    && (forall r :: r in s.runs ==> RunOk(s, r))
    && (forall r :: r in s.runs && s.runs[r].pc.Validated? && s.runs[r].job in s.jobs ==>
          ValidatedOk(bind, s, s.jobs[s.runs[r].job].approval, s.runs[r].pc))
    && (forall j :: j in s.commits && j in s.jobs && ConsumesToken(s.jobs[j].tool) ==> Sealed(s.jobs[j]))
    && (forall e :: e in s.toolErrors ==> e.0 in s.jobs && !ConsumesToken(s.jobs[e.0].tool))
  }

  ghost predicate ConsumptionOk(bind: Binder, s: State, c: Consumption) {
    && c.token in s.tokens && s.tokens[c.token].status == Consumed
    && c.run in s.runs
    && c.validatedAt <= c.at <= s.now
    && c.validatedAt < s.tokens[c.token].expiresAt
    && bind(s.tokens[c.token].tool, c.args) == Some(Binding(s.tokens[c.token].hash, s.tokens[c.token].target))
  }

  ghost predicate HasConsumption(s: State, t: Id, r: Id, args: string) {
    exists i :: 0 <= i < |s.consumptions| && s.consumptions[i].token == t
                && s.consumptions[i].run == r && s.consumptions[i].args == args
  }

  /** A run that has made its write, or never will. */
  ghost predicate Done(pc: RunPc) {
    pc.Performed? || pc.Reported? || pc.ErrorRecorded? || pc.Doomed? || pc.Closing? || pc.Over?
  }

  ghost predicate EffectOk(bind: Binder, s: State, e: Effect) {
    && e.token in s.tokens && e.run in s.runs
    && Done(s.runs[e.run].pc)
    && e.tool == s.tokens[e.token].tool
    && HasConsumption(s, e.token, e.run, e.args)
  }

  ghost predicate SpentOk(s: State, r: Id)
    requires r in s.runs && s.runs[r].pc.Spent?
  {
    var pc := s.runs[r].pc;
    pc.token in s.tokens && s.tokens[pc.token].tool == pc.call.tool && HasConsumption(s, pc.token, r, pc.call.args)
  }

  ghost predicate LogOk(bind: Binder, s: State) {
    && (forall i :: 0 <= i < |s.consumptions| ==> ConsumptionOk(bind, s, s.consumptions[i]))
    && (forall i, j :: 0 <= i < j < |s.consumptions| ==> s.consumptions[i].token != s.consumptions[j].token)
    && (forall i :: 0 <= i < |s.effects| ==> EffectOk(bind, s, s.effects[i]))
    && (forall i, j :: 0 <= i < j < |s.effects| ==> s.effects[i].token != s.effects[j].token)
    && (forall r :: r in s.runs && s.runs[r].pc.Spent? ==> SpentOk(s, r))
  }

  ghost predicate HandlersOk(bind: Binder, s: State) {
    DecidersOk(s) && TokensOk(bind, s) && JobsOk(s)
  }

  /** The invariant in layers, so that a step's proof opens it only where it needs to. */
  datatype Layer = Handlers | Workers | Log

  ghost predicate Holds(bind: Binder, s: State, layer: Layer) {
    match layer
    case Handlers => HandlersOk(bind, s)
    case Workers => RunsOk(bind, s)
    case Log => LogOk(bind, s)
  }

  ghost predicate Inv(bind: Binder, s: State) {
    forall layer {:trigger Holds(bind, s, layer)} :: Holds(bind, s, layer)
  }

  lemma OpenInv(bind: Binder, s: State)
    requires Inv(bind, s)
    ensures HandlersOk(bind, s) && RunsOk(bind, s) && LogOk(bind, s)
  {
    assert Holds(bind, s, Handlers) && Holds(bind, s, Workers) && Holds(bind, s, Log);
  }

  lemma CloseInv(bind: Binder, s: State)
    requires HandlersOk(bind, s) && RunsOk(bind, s) && LogOk(bind, s)
    ensures Inv(bind, s)
  {
  }

  // ----- steps of a worker: one run and its job change -----

  /** The state after one run, its job and the attempt's history have moved. */
  function Moved(s: State, j: Id, job: Job, r: Id, run: Run, commits: map<Id, Id>, errors: set<(Id, nat)>, results: set<(Id, nat)>): State {
    s.(jobs := s.jobs[j := job], runs := s.runs[r := run], commits := commits, toolErrors := errors, toolResults := results)
  }

  ghost predicate MoveAllowed(bind: Binder, s: State, j: Id, job: Job, r: Id, run: Run, commits: map<Id, Id>, errors: set<(Id, nat)>) {
    && j in s.jobs && run.job == j
    && job.approval == s.jobs[j].approval && job.call == s.jobs[j].call && job.tool == s.jobs[j].tool
    && (r in s.runs ==> s.runs[r].job == j && (Done(s.runs[r].pc) ==> Done(run.pc)))
    && (commits == s.commits || (commits == s.commits[j := r] && !Sealed(s.jobs[j])))
    && (j in commits && ConsumesToken(job.tool) ==> Sealed(job))
    && (run.pc.Spent? ==> r in s.runs && run.pc == s.runs[r].pc)
    && (HoldsCall(run.pc) ==> run.pc.call.tool == job.tool)
    && (run.pc.ErrorRecorded? ==> !ConsumesToken(job.tool))
    && (forall e :: e in errors ==> e in s.toolErrors || (e.0 == j && !ConsumesToken(job.tool)))
    && (Live(run.pc) ==> j in commits && commits[j] == r)
    && (run.pc.Validated? ==> ValidatedOk(bind, s, job.approval, run.pc))
  }

  lemma MoveKeepsRuns(bind: Binder, s: State, j: Id, job: Job, r: Id, run: Run, commits: map<Id, Id>, errors: set<(Id, nat)>, results: set<(Id, nat)>)
    requires RunsOk(bind, s) && MoveAllowed(bind, s, j, job, r, run, commits, errors)
    ensures RunsOk(bind, Moved(s, j, job, r, run, commits, errors, results))
  {
    var s' := Moved(s, j, job, r, run, commits, errors, results);
    forall q | q in s'.runs
      ensures RunOk(s', q) && (s'.runs[q].pc.Validated? ==> ValidatedOk(bind, s', s'.jobs[s'.runs[q].job].approval, s'.runs[q].pc))
    {
      if q != r {
        assert RunOk(s, q);
        assert s.runs[q].pc.Validated? ==> ValidatedOk(bind, s, s.jobs[s.runs[q].job].approval, s.runs[q].pc);
      }
    }
  }

  lemma MoveKeepsLog(bind: Binder, s: State, j: Id, job: Job, r: Id, run: Run, commits: map<Id, Id>, errors: set<(Id, nat)>, results: set<(Id, nat)>)
    requires LogOk(bind, s) && MoveAllowed(bind, s, j, job, r, run, commits, errors)
    ensures LogOk(bind, Moved(s, j, job, r, run, commits, errors, results))
  {
    var s' := Moved(s, j, job, r, run, commits, errors, results);
    forall i | 0 <= i < |s'.consumptions| ensures ConsumptionOk(bind, s', s'.consumptions[i]) {
      assert ConsumptionOk(bind, s, s.consumptions[i]);
    }
    forall i | 0 <= i < |s'.effects| ensures EffectOk(bind, s', s'.effects[i]) {
      assert EffectOk(bind, s, s.effects[i]);
    }
    forall q | q in s'.runs && s'.runs[q].pc.Spent? ensures SpentOk(s', q) {
      assert q in s.runs && s.runs[q].pc == s'.runs[q].pc && SpentOk(s, q);
    }
  }

  lemma MoveKeepsJobs(bind: Binder, s: State, j: Id, job: Job, r: Id, run: Run, commits: map<Id, Id>, errors: set<(Id, nat)>, results: set<(Id, nat)>)
    requires JobsOk(s) && MoveAllowed(bind, s, j, job, r, run, commits, errors)
    ensures JobsOk(Moved(s, j, job, r, run, commits, errors, results))
  {
    var s' := Moved(s, j, job, r, run, commits, errors, results);
    forall k | k in s'.jobs ensures JobOk(s', k) {
      assert JobOk(s, k);
    }
  }

  lemma MoveKeepsTokens(bind: Binder, s: State, j: Id, job: Job, r: Id, run: Run, commits: map<Id, Id>, errors: set<(Id, nat)>, results: set<(Id, nat)>)
    requires DecidersOk(s) && TokensOk(bind, s)
    ensures var s' := Moved(s, j, job, r, run, commits, errors, results); DecidersOk(s') && TokensOk(bind, s')
  {
    var s' := Moved(s, j, job, r, run, commits, errors, results);
    forall a | a in s'.winners ensures WinnerOk(s', a) { assert WinnerOk(s, a); }
    forall d | d in s'.deciders ensures DeciderOk(s', d) { assert DeciderOk(s, d); }
    forall t | t in s'.tokens ensures TokenOk(bind, s', t) { assert TokenOk(bind, s, t); }
  }

  lemma MoveKeeps(bind: Binder, s: State, j: Id, job: Job, r: Id, run: Run, commits: map<Id, Id>, errors: set<(Id, nat)>, results: set<(Id, nat)>)
    requires Inv(bind, s) && MoveAllowed(bind, s, j, job, r, run, commits, errors)
    ensures Inv(bind, Moved(s, j, job, r, run, commits, errors, results))
  {
    OpenInv(bind, s);
    MoveKeepsTokens(bind, s, j, job, r, run, commits, errors, results);
    MoveKeepsJobs(bind, s, j, job, r, run, commits, errors, results);
    MoveKeepsRuns(bind, s, j, job, r, run, commits, errors, results);
    MoveKeepsLog(bind, s, j, job, r, run, commits, errors, results);
    CloseInv(bind, Moved(s, j, job, r, run, commits, errors, results));
  }

  /** One worker step: nothing, or a permitted move of run `r` and its job. */
  ghost predicate MovesRun(bind: Binder, s: State, s': State, r: Id) {
    s' == s
    || (r in s'.runs && s'.runs[r].job in s'.jobs
        && var j := s'.runs[r].job;
           MoveAllowed(bind, s, j, s'.jobs[j], r, s'.runs[r], s'.commits, s'.toolErrors)
           && s' == Moved(s, j, s'.jobs[j], r, s'.runs[r], s'.commits, s'.toolErrors, s'.toolResults))
  }

  /** What the invariant says about one run and one job, and about nothing else. */
  ghost predicate RunFacts(bind: Binder, s: State, r: Id) {
    r in s.runs ==>
      && RunOk(s, r)
      && JobOk(s, s.runs[r].job)
      && JobFacts(s, s.runs[r].job)
      && (s.runs[r].pc.Validated? ==> ValidatedOk(bind, s, JobOf(s, r).approval, s.runs[r].pc))
      && (Attempt(s, r) in s.toolErrors ==> !ConsumesToken(JobOf(s, r).tool))
  }

  ghost predicate JobFacts(s: State, j: Id) {
    j in s.jobs && j in s.commits && ConsumesToken(s.jobs[j].tool) ==> Sealed(s.jobs[j])
  }

  lemma MovesRunKeeps(bind: Binder, s: State, s': State, r: Id)
    requires Inv(bind, s)
    requires MovesRun(bind, s, s', r)
    ensures Inv(bind, s')
  {
    if s' != s {
      var j := s'.runs[r].job;
      MoveKeeps(bind, s, j, s'.jobs[j], r, s'.runs[r], s'.commits, s'.toolErrors, s'.toolResults);
    }
  }

  lemma StartJobMoves(bind: Binder, s: State, j: Id, r: Id, w: string)
    requires JobFacts(s, j)
    ensures MovesRun(bind, s, DoStartJob(s, j, r, w), r)
  {
  }

  lemma RecoverExpiredMoves(bind: Binder, s: State, j: Id, r: Id, w: string)
    requires JobFacts(s, j)
    ensures MovesRun(bind, s, DoRecoverExpired(s, j, r, w), r)
  {
  }

  lemma ResumeClosingMoves(bind: Binder, s: State, j: Id, r: Id, w: string)
    requires JobFacts(s, j)
    ensures MovesRun(bind, s, DoResumeClosing(s, j, r, w), r)
  {
  }

  lemma RenewLeaseMoves(bind: Binder, s: State, r: Id, lease: Time)
    requires RunFacts(bind, s, r)
    ensures MovesRun(bind, s, DoRenewLease(s, r, lease), r)
  {
  }

  lemma LoadApprovalMoves(bind: Binder, s: State, r: Id)
    requires RunFacts(bind, s, r)
    ensures MovesRun(bind, s, DoLoadApproval(s, r), r)
  {
  }

  lemma LoadCallMoves(bind: Binder, s: State, r: Id)
    requires RunFacts(bind, s, r)
    ensures MovesRun(bind, s, DoLoadCall(s, r), r)
  {
  }

  lemma PrecheckMoves(bind: Binder, s: State, r: Id, t: Id, denied: bool)
    requires RunFacts(bind, s, r)
    ensures MovesRun(bind, s, DoPrecheck(bind, s, r, t, denied), r)
  {
  }

  lemma FindSpentMoves(bind: Binder, s: State, r: Id, t: Id)
    requires RunFacts(bind, s, r)
    ensures MovesRun(bind, s, DoFindSpent(s, r, t), r)
  {
  }

  lemma BeginExecutingMoves(bind: Binder, s: State, r: Id)
    requires RunFacts(bind, s, r)
    ensures MovesRun(bind, s, DoBeginExecuting(s, r), r)
  {
  }

  lemma ValidateTokenMoves(bind: Binder, s: State, r: Id, t: Id, denied: bool)
    requires RunFacts(bind, s, r)
    ensures MovesRun(bind, s, DoValidateToken(bind, s, r, t, denied), r)
  {
  }

  lemma PerformOtherMoves(bind: Binder, s: State, r: Id)
    requires RunFacts(bind, s, r)
    ensures MovesRun(bind, s, DoPerformOther(s, r), r)
  {
  }

  lemma RecordToolResultMoves(bind: Binder, s: State, r: Id)
    requires RunFacts(bind, s, r)
    ensures MovesRun(bind, s, DoRecordToolResult(s, r), r)
  {
  }

  lemma RecordToolErrorMoves(bind: Binder, s: State, r: Id)
    requires RunFacts(bind, s, r)
    ensures MovesRun(bind, s, DoRecordToolError(s, r), r)
  {
  }

  lemma FailPrecommitMoves(bind: Binder, s: State, r: Id)
    requires RunFacts(bind, s, r)
    ensures MovesRun(bind, s, DoFailPrecommit(s, r), r)
  {
  }

  lemma FailRetrySafeMoves(bind: Binder, s: State, r: Id)
    requires RunFacts(bind, s, r)
    ensures MovesRun(bind, s, DoFailRetrySafe(s, r), r)
  {
  }

  lemma FailKnownMoves(bind: Binder, s: State, r: Id)
    requires RunFacts(bind, s, r)
    ensures MovesRun(bind, s, DoFailKnown(s, r), r)
  {
  }

  lemma FailUnknownMoves(bind: Binder, s: State, r: Id)
    requires RunFacts(bind, s, r)
    ensures MovesRun(bind, s, DoFailUnknown(s, r), r)
  {
  }

  lemma CompleteRunMoves(bind: Binder, s: State, r: Id)
    requires RunFacts(bind, s, r)
    ensures MovesRun(bind, s, DoCompleteRun(s, r), r)
  {
  }

  lemma ReconcileErrorMoves(bind: Binder, s: State, r: Id)
    requires RunFacts(bind, s, r)
    ensures MovesRun(bind, s, DoReconcileError(s, r), r)
  {
  }

  lemma ReconcileUnknownMoves(bind: Binder, s: State, r: Id)
    requires RunFacts(bind, s, r)
    ensures MovesRun(bind, s, DoReconcileUnknown(s, r), r)
  {
  }

  lemma PrepareTailMoves(bind: Binder, s: State, r: Id)
    requires RunFacts(bind, s, r)
    ensures MovesRun(bind, s, DoPrepareTail(s, r), r)
  {
  }

  lemma FinishClosingMoves(bind: Binder, s: State, r: Id)
    requires RunFacts(bind, s, r)
    ensures MovesRun(bind, s, DoFinishClosing(s, r), r)
  {
  }

  lemma RunFactsHold(bind: Binder, s: State, r: Id)
    requires Inv(bind, s)
    ensures RunFacts(bind, s, r)
  {
    OpenInv(bind, s);
    if r in s.runs {
      assert RunOk(s, r);
    }
  }

  // ----- cancellation changes a job and no run -----

  ghost predicate SameTokenFacts(t: Token, u: Token) {
    t.approval == u.approval && t.tool == u.tool && t.hash == u.hash && t.target == u.target && t.expiresAt == u.expiresAt
  }

  ghost predicate SameJobFacts(j: Job, k: Job) {
    j.approval == k.approval && j.call == k.call && j.tool == k.tool
  }

  /** Steps that settle no approval and create nothing keep what is known of handlers, tokens and jobs. */
  lemma HandlersFrame(bind: Binder, s: State, s': State)
    requires HandlersOk(bind, s)
    requires s'.approvals == s.approvals && s'.calls == s.calls && s'.deciders == s.deciders
    requires s'.winners == s.winners && s'.issues == s.issues && s'.commits == s.commits
    requires s'.tokens.Keys == s.tokens.Keys && forall t :: t in s.tokens ==> SameTokenFacts(s.tokens[t], s'.tokens[t])
    requires s'.jobs.Keys == s.jobs.Keys && forall j :: j in s.jobs ==> SameJobFacts(s.jobs[j], s'.jobs[j])
    ensures HandlersOk(bind, s')
  {
    forall a | a in s'.winners ensures WinnerOk(s', a) { assert WinnerOk(s, a); }
    forall d | d in s'.deciders ensures DeciderOk(s', d) { assert DeciderOk(s, d); }
    forall t | t in s'.tokens ensures TokenOk(bind, s', t) { assert TokenOk(bind, s, t) && SameTokenFacts(s.tokens[t], s'.tokens[t]); }
    forall j | j in s'.jobs ensures JobOk(s', j) { assert JobOk(s, j) && SameJobFacts(s.jobs[j], s'.jobs[j]); }
    forall t, u | t in s'.tokens && u in s'.tokens && s'.tokens[t].approval == s'.tokens[u].approval ensures t == u {
      assert SameTokenFacts(s.tokens[t], s'.tokens[t]) && SameTokenFacts(s.tokens[u], s'.tokens[u]);
    }
    forall j, k | j in s'.jobs && k in s'.jobs && s'.jobs[j].approval == s'.jobs[k].approval ensures j == k {
      assert SameJobFacts(s.jobs[j], s'.jobs[j]) && SameJobFacts(s.jobs[k], s'.jobs[k]);
    }
  }

  lemma CancelKeepsRuns(bind: Binder, s: State, j: Id, job: Job)
    requires RunsOk(bind, s)
    requires j in s.jobs && !Sealed(s.jobs[j]) && SameJobFacts(s.jobs[j], job)
    ensures RunsOk(bind, s.(jobs := s.jobs[j := job]))
  {
    var s' := s.(jobs := s.jobs[j := job]);
    forall q | q in s'.runs
      ensures RunOk(s', q) && (s'.runs[q].pc.Validated? ==> ValidatedOk(bind, s', s'.jobs[s'.runs[q].job].approval, s'.runs[q].pc))
    {
      assert RunOk(s, q);
      assert s.runs[q].pc.Validated? ==> ValidatedOk(bind, s, s.jobs[s.runs[q].job].approval, s.runs[q].pc);
    }
  }

  lemma CancelKeeps(bind: Binder, s: State, j: Id, job: Job)
    requires Inv(bind, s)
    requires j in s.jobs && !Sealed(s.jobs[j]) && SameJobFacts(s.jobs[j], job)
    ensures Inv(bind, s.(jobs := s.jobs[j := job]))
  {
    var s' := s.(jobs := s.jobs[j := job]);
    forall layer ensures Holds(bind, s', layer) {
      assert Holds(bind, s, layer);
      match layer
      case Handlers => HandlersFrame(bind, s, s');
      case Workers => CancelKeepsRuns(bind, s, j, job);
      case Log => LogFrame(bind, s, s');
    }
  }

  lemma LogFrame(bind: Binder, s: State, s': State)
    requires LogOk(bind, s)
    requires s'.tokens == s.tokens && s'.runs == s.runs && s.now <= s'.now
    requires s'.consumptions == s.consumptions && s'.effects == s.effects
    ensures LogOk(bind, s')
  {
    forall i | 0 <= i < |s'.consumptions| ensures ConsumptionOk(bind, s', s'.consumptions[i]) {
      assert ConsumptionOk(bind, s, s.consumptions[i]);
    }
    forall i | 0 <= i < |s'.effects| ensures EffectOk(bind, s', s'.effects[i]) {
      assert EffectOk(bind, s, s.effects[i]);
    }
    forall q | q in s'.runs && s'.runs[q].pc.Spent? ensures SpentOk(s', q) {
      assert SpentOk(s, q);
    }
  }

  // ----- requests, edits and time: no handler, token, job or run changes -----

  ghost predicate ApprovalsKept(before: map<Id, Approval>, after: map<Id, Approval>) {
    forall a :: a in before ==>
      a in after && after[a].expiresAt == before[a].expiresAt
      && (before[a].status == Approved ==> after[a].status == Approved)
  }

  ghost predicate CallsKept(before: map<Id, ToolCall>, after: map<Id, ToolCall>) {
    forall c :: c in before ==> c in after && after[c].tool == before[c].tool
  }

  ghost predicate SameFlow(s: State, s': State) {
    && s'.deciders == s.deciders && s'.winners == s.winners && s'.issues == s.issues
    && s'.tokens == s.tokens && s'.jobs == s.jobs && s'.commits == s.commits && s'.runs == s.runs
    && s'.toolErrors == s.toolErrors && s'.consumptions == s.consumptions && s'.effects == s.effects
  }

  /** Approvals may be opened or declined, and calls opened or edited, but nothing settled is undone. */
  lemma RequestsKeep(bind: Binder, s: State, s': State)
    requires Inv(bind, s) && SameFlow(s, s') && s.now <= s'.now
    requires ApprovalsKept(s.approvals, s'.approvals) && CallsKept(s.calls, s'.calls)
    ensures Inv(bind, s')
  {
    forall layer ensures Holds(bind, s', layer) {
      assert Holds(bind, s, layer);
      match layer
      case Handlers => RequestsKeepHandlers(bind, s, s');
      case Workers => RunsFrame(bind, s, s');
      case Log => LogFrame(bind, s, s');
    }
  }

  lemma RequestsKeepHandlers(bind: Binder, s: State, s': State)
    requires HandlersOk(bind, s)
    requires ApprovalsKept(s.approvals, s'.approvals) && CallsKept(s.calls, s'.calls)
    requires SameFlow(s, s')
    ensures HandlersOk(bind, s')
  {
    forall a | a in s'.winners ensures WinnerOk(s', a) { assert WinnerOk(s, a); }
    forall d | d in s'.deciders ensures DeciderOk(s', d) { assert DeciderOk(s, d); }
    forall t | t in s'.tokens ensures TokenOk(bind, s', t) { assert TokenOk(bind, s, t); }
    forall k | k in s'.jobs ensures JobOk(s', k) { assert JobOk(s, k); }
  }

  ghost predicate IsRequest(s: State, s': State) {
    SameFlow(s, s') && s'.now == s.now && ApprovalsKept(s.approvals, s'.approvals) && CallsKept(s.calls, s'.calls)
  }

  lemma ModifyArgsIsRequest(bind: Binder, s: State, a: Id, args: string)
    ensures IsRequest(s, DoModifyArgs(bind, s, a, args))
  {
  }

  lemma SameStateIsRequest(s: State)
    ensures IsRequest(s, s)
  {
  }

  lemma CallEditIsRequest(s: State, c: Id, call: ToolCall)
    requires c in s.calls && call.tool == s.calls[c].tool
    ensures IsRequest(s, s.(calls := s.calls[c := call]))
  {
    assert CallsKept(s.calls, s.calls[c := call]);
  }

  lemma OverwriteArgsIsRequest(s: State, c: Id, args: string)
    ensures IsRequest(s, DoOverwriteArgs(s, c, args))
  {
    if c in s.calls {
      if s.calls[c].status == WaitingApproval {
        CallEditIsRequest(s, c, s.calls[c].(args := args));
      } else {
        SameStateIsRequest(s);
      }
    } else {
      SameStateIsRequest(s);
    }
  }

  lemma OpenCallIsRequest(s: State, c: Id, call: ToolCall)
    ensures IsRequest(s, DoOpenCall(s, c, call))
  {
    if c in s.calls {
    } else {
      assert CallsKept(s.calls, s.calls[c := call]);
    }
  }

  lemma OpenApprovalIsRequest(s: State, a: Id, request: Approval)
    ensures IsRequest(s, DoOpenApproval(s, a, request))
  {
    if a in s.approvals || request.status != Pending {
    } else {
      assert ApprovalsKept(s.approvals, s.approvals[a := request]);
    }
  }

  lemma KeptIsRequest(s: State, approvals: map<Id, Approval>, calls: map<Id, ToolCall>)
    requires ApprovalsKept(s.approvals, approvals) && CallsKept(s.calls, calls)
    ensures IsRequest(s, s.(approvals := approvals, calls := calls))
  {
  }

  lemma DeclineKeepsApprovals(s: State, a: Id, decision: ApprovalStatus)
    ensures ApprovalsKept(s.approvals, DoDecline(s, a, decision).approvals)
  {
    var after := DoDecline(s, a, decision).approvals;
    if after != s.approvals {
      assert s.approvals[a].status != Approved && after == s.approvals[a := s.approvals[a].(status := decision)];
    }
  }

  lemma DeclineKeepsCalls(s: State, a: Id, decision: ApprovalStatus)
    ensures CallsKept(s.calls, DoDecline(s, a, decision).calls)
  {
  }

  lemma DeclineTouchesNothingElse(s: State, a: Id, decision: ApprovalStatus)
    ensures DoDecline(s, a, decision)
         == s.(approvals := DoDecline(s, a, decision).approvals, calls := DoDecline(s, a, decision).calls)
  {
  }

  lemma DeclineIsRequest(s: State, a: Id, decision: ApprovalStatus)
    ensures IsRequest(s, DoDecline(s, a, decision))
  {
    var s' := DoDecline(s, a, decision);
    DeclineKeepsApprovals(s, a, decision);
    DeclineKeepsCalls(s, a, decision);
    DeclineTouchesNothingElse(s, a, decision);
    KeptIsRequest(s, s'.approvals, s'.calls);
  }

  // ----- the approve handler -----

  ghost predicate MayAdvance(from: DeciderPc, to: DeciderPc) {
    to != Checked && from != Finished && (Won(to) ==> Won(from)) && (BeforeToken(to) ==> BeforeToken(from))
  }

  lemma AdvanceKeepsHandlers(bind: Binder, s: State, d: Id, pc: DeciderPc)
    requires HandlersOk(bind, s)
    requires d in s.deciders && MayAdvance(s.deciders[d].pc, pc)
    ensures HandlersOk(bind, SetDecider(s, d, pc))
  {
    var s' := SetDecider(s, d, pc);
    forall a | a in s'.winners ensures WinnerOk(s', a) { assert WinnerOk(s, a); }
    forall e | e in s'.deciders ensures DeciderOk(s', e) { assert DeciderOk(s, e); }
    forall t | t in s'.tokens ensures TokenOk(bind, s', t) { assert TokenOk(bind, s, t); }
    forall k | k in s'.jobs ensures JobOk(s', k) { assert JobOk(s, k); }
  }

  lemma AdvanceDeciderKeeps(bind: Binder, s: State, d: Id, pc: DeciderPc)
    requires Inv(bind, s)
    requires d in s.deciders && MayAdvance(s.deciders[d].pc, pc)
    ensures Inv(bind, SetDecider(s, d, pc))
  {
    var s' := SetDecider(s, d, pc);
    forall layer ensures Holds(bind, s', layer) {
      assert Holds(bind, s, layer);
      match layer
      case Handlers => AdvanceKeepsHandlers(bind, s, d, pc);
      case Workers => RunsFrame(bind, s, s');
      case Log => LogFrame(bind, s, s');
    }
  }

  lemma RunsFrame(bind: Binder, s: State, s': State)
    requires RunsOk(bind, s)
    requires s'.runs == s.runs && s'.commits == s.commits && s'.toolErrors == s.toolErrors && s.now <= s'.now
    requires forall j :: j in s.jobs ==> j in s'.jobs && s'.jobs[j] == s.jobs[j]
    requires forall j :: j in s'.jobs && j !in s.jobs ==> s'.jobs[j].status == Queued && j !in s.commits
    requires forall t :: t in s.tokens ==> t in s'.tokens && s'.tokens[t] == s.tokens[t]
    ensures RunsOk(bind, s')
  {
    forall q | q in s'.runs
      ensures RunOk(s', q) && (s'.runs[q].pc.Validated? ==> ValidatedOk(bind, s', s'.jobs[s'.runs[q].job].approval, s'.runs[q].pc))
    {
      assert RunOk(s, q);
      assert s.runs[q].pc.Validated? ==> ValidatedOk(bind, s, s.jobs[s.runs[q].job].approval, s.runs[q].pc);
    }
  }

  lemma NewDeciderKeepsHandlers(bind: Binder, s: State, d: Id, decider: Decider)
    requires HandlersOk(bind, s) && d !in s.deciders
    requires decider.pc == Checked && decider.approval in s.approvals
    requires !PastExpiry(s.approvals[decider.approval].expiresAt, decider.checkedAt)
    ensures HandlersOk(bind, s.(deciders := s.deciders[d := decider]))
  {
    var s' := s.(deciders := s.deciders[d := decider]);
    forall b | b in s'.winners ensures WinnerOk(s', b) { assert WinnerOk(s, b); }
    forall e | e in s'.deciders ensures DeciderOk(s', e) {
      if e != d { assert DeciderOk(s, e); }
    }
    forall t | t in s'.tokens ensures TokenOk(bind, s', t) { assert TokenOk(bind, s, t); }
    forall k | k in s'.jobs ensures JobOk(s', k) { assert JobOk(s, k); }
  }

  lemma CheckApprovalKeeps(bind: Binder, s: State, d: Id, a: Id)
    requires Inv(bind, s)
    ensures Inv(bind, DoCheckApproval(s, d, a))
  {
    if d in s.deciders || a !in s.approvals {
    } else if s.approvals[a].status != Pending || ApprovalExpiredAt(s.approvals[a], s.now) {
    } else {
      var s' := DoCheckApproval(s, d, a);
      OpenInv(bind, s);
      NewDeciderKeepsHandlers(bind, s, d, Decider(a, s.now, Checked));
      RunsFrame(bind, s, s');
      LogFrame(bind, s, s');
      CloseInv(bind, s');
    }
  }

  lemma WinKeepsHandlers(bind: Binder, s: State, d: Id)
    requires HandlersOk(bind, s)
    requires DeciderAt(s, d, Checked)
    requires s.deciders[d].approval in s.approvals && s.approvals[s.deciders[d].approval].status == Pending
    ensures HandlersOk(bind, DoDecideApproved(s, d))
  {
    var s' := DoDecideApproved(s, d);
    var a := s.deciders[d].approval;
    assert DeciderOk(s, d);
    assert a !in s.winners;
    forall b | b in s'.winners ensures WinnerOk(s', b) {
      if b != a { assert WinnerOk(s, b); }
    }
    forall e | e in s'.deciders ensures DeciderOk(s', e) { assert DeciderOk(s, e); }
    forall t | t in s'.tokens ensures TokenOk(bind, s', t) { assert TokenOk(bind, s, t); }
    forall k | k in s'.jobs ensures JobOk(s', k) { assert JobOk(s, k); }
  }

  lemma DecideApprovedKeeps(bind: Binder, s: State, d: Id)
    requires Inv(bind, s)
    ensures Inv(bind, DoDecideApproved(s, d))
  {
    if DeciderAt(s, d, Checked) {
      var a := s.deciders[d].approval;
      if a !in s.approvals || s.approvals[a].status != Pending {
        AdvanceDeciderKeeps(bind, s, d, Aborted);
      } else {
        var s' := DoDecideApproved(s, d);
        OpenInv(bind, s);
        WinKeepsHandlers(bind, s, d);
        RunsFrame(bind, s, s');
        LogFrame(bind, s, s');
        CloseInv(bind, s');
      }
    }
  }

  lemma DecidersFrame(s: State, s': State)
    requires DecidersOk(s)
    requires s'.approvals == s.approvals && s'.deciders == s.deciders && s'.winners == s.winners
    ensures DecidersOk(s')
  {
    forall b | b in s'.winners ensures WinnerOk(s', b) { assert WinnerOk(s, b); }
    forall e | e in s'.deciders ensures DeciderOk(s', e) { assert DeciderOk(s, e); }
  }

  lemma JobsFrame(s: State, s': State)
    requires JobsOk(s)
    requires s'.approvals == s.approvals && s'.deciders == s.deciders && s'.winners == s.winners
    requires s'.jobs == s.jobs && s'.calls == s.calls && s'.commits == s.commits
    ensures JobsOk(s')
  {
    forall k | k in s'.jobs ensures JobOk(s', k) { assert JobOk(s, k); }
  }

  lemma TokensFrame(bind: Binder, s: State, s': State)
    requires TokensOk(bind, s)
    requires s'.approvals == s.approvals && s'.deciders == s.deciders && s'.winners == s.winners
    requires s'.tokens == s.tokens && s'.issues == s.issues
    ensures TokensOk(bind, s')
  {
    forall t | t in s'.tokens ensures TokenOk(bind, s', t) { assert TokenOk(bind, s, t); }
  }

  lemma AddTokenKeepsTokens(bind: Binder, s: State, t: Id, token: Token, issue: Issue)
    requires TokensOk(bind, s) && t !in s.tokens
    requires forall u :: u in s.tokens ==> s.tokens[u].approval != token.approval
    requires TokenOk(bind, s.(tokens := s.tokens[t := token], issues := s.issues[t := issue]), t)
    ensures TokensOk(bind, s.(tokens := s.tokens[t := token], issues := s.issues[t := issue]))
  {
    var s' := s.(tokens := s.tokens[t := token], issues := s.issues[t := issue]);
    forall u | u in s'.tokens ensures TokenOk(bind, s', u) {
      if u != t { assert TokenOk(bind, s, u); }
    }
  }

  lemma AddTokenKeepsHandlers(bind: Binder, s: State, t: Id, token: Token, issue: Issue)
    requires HandlersOk(bind, s) && t !in s.tokens
    requires forall u :: u in s.tokens ==> s.tokens[u].approval != token.approval
    requires TokenOk(bind, s.(tokens := s.tokens[t := token], issues := s.issues[t := issue]), t)
    ensures HandlersOk(bind, s.(tokens := s.tokens[t := token], issues := s.issues[t := issue]))
  {
    var s' := s.(tokens := s.tokens[t := token], issues := s.issues[t := issue]);
    DecidersFrame(s, s');
    JobsFrame(s, s');
    AddTokenKeepsTokens(bind, s, t, token, issue);
  }

  /** A decider that has not created its token knows there is none. */
  lemma NoTokenYet(bind: Binder, s: State, d: Id)
    requires HandlersOk(bind, s)
    requires d in s.deciders && BeforeToken(s.deciders[d].pc)
    ensures s.deciders[d].approval in s.winners && WinnerOk(s, s.deciders[d].approval)
    ensures forall u :: u in s.tokens ==> s.tokens[u].approval != s.deciders[d].approval
  {
    assert DeciderOk(s, d);
    forall u | u in s.tokens ensures s.tokens[u].approval != s.deciders[d].approval {
      assert TokenOk(bind, s, u);
    }
  }

  lemma NewTokenKeepsHandlers(bind: Binder, s: State, d: Id, t: Id)
    requires HandlersOk(bind, s)
    requires d in s.deciders && s.deciders[d].pc.NoToken? && t !in s.tokens
    requires MatchingBinding(bind, s.deciders[d].pc.call).Some? && s.deciders[d].pc.call.grant.Some?
    requires s.deciders[d].approval in s.approvals && s.approvals[s.deciders[d].approval].call.Some?
    ensures HandlersOk(bind, DoCreateToken(bind, s, d, t))
  {
    var a := s.deciders[d].approval;
    var call := s.deciders[d].pc.call;
    var token := IssuedToken(s, a, s.approvals[a], call, MatchingBinding(bind, call).value);
    NoTokenYet(bind, s, d);
    AdvanceKeepsHandlers(bind, s, d, ReadyToEnqueue);
    AddTokenKeepsHandlers(bind, SetDecider(s, d, ReadyToEnqueue), t, token, Issue(d, s.deciders[d].checkedAt, call));
  }

  lemma NewTokenKeeps(bind: Binder, s: State, d: Id, t: Id)
    requires Inv(bind, s)
    requires d in s.deciders && s.deciders[d].pc.NoToken? && t !in s.tokens
    requires MatchingBinding(bind, s.deciders[d].pc.call).Some? && s.deciders[d].pc.call.grant.Some?
    requires s.deciders[d].approval in s.approvals && s.approvals[s.deciders[d].approval].call.Some?
    ensures Inv(bind, DoCreateToken(bind, s, d, t))
  {
    var s' := DoCreateToken(bind, s, d, t);
    forall layer ensures Holds(bind, s', layer) {
      assert Holds(bind, s, layer);
      match layer
      case Handlers => NewTokenKeepsHandlers(bind, s, d, t);
      case Workers => RunsFrame(bind, s, s');
      case Log => LogFrameNewToken(bind, s, s', t);
    }
  }

  lemma CreateTokenKeeps(bind: Binder, s: State, d: Id, t: Id)
    requires Inv(bind, s)
    ensures Inv(bind, DoCreateToken(bind, s, d, t))
  {
    OpenInv(bind, s);
    if d in s.deciders && s.deciders[d].pc.NoToken? && t !in s.tokens {
      NoTokenYet(bind, s, d);
      var call := s.deciders[d].pc.call;
      if MatchingBinding(bind, call).None? {
        AdvanceDeciderKeeps(bind, s, d, Aborted);
      } else if s.approvals[s.deciders[d].approval].call.None? || call.grant.None? {
        AdvanceDeciderKeeps(bind, s, d, Aborted);
      } else {
        NewTokenKeeps(bind, s, d, t);
      }
    }
  }

  lemma LogFrameNewToken(bind: Binder, s: State, s': State, t: Id)
    requires LogOk(bind, s)
    requires t !in s.tokens && t in s'.tokens && s'.tokens == s.tokens[t := s'.tokens[t]]
    requires s'.runs == s.runs && s.now == s'.now
    requires s'.consumptions == s.consumptions && s'.effects == s.effects
    ensures LogOk(bind, s')
  {
    forall i | 0 <= i < |s'.consumptions| ensures ConsumptionOk(bind, s', s'.consumptions[i]) {
      assert ConsumptionOk(bind, s, s.consumptions[i]);
    }
    forall i | 0 <= i < |s'.effects| ensures EffectOk(bind, s', s'.effects[i]) {
      assert EffectOk(bind, s, s.effects[i]);
    }
    forall q | q in s'.runs && s'.runs[q].pc.Spent? ensures SpentOk(s', q) {
      assert SpentOk(s, q);
    }
  }

  lemma AddJobKeepsHandlers(bind: Binder, s: State, j: Id, job: Job)
    requires HandlersOk(bind, s) && j !in s.jobs
    requires forall k :: k in s.jobs ==> s.jobs[k].approval != job.approval
    requires JobOk(s.(jobs := s.jobs[j := job]), j)
    ensures HandlersOk(bind, s.(jobs := s.jobs[j := job]))
  {
    var s' := s.(jobs := s.jobs[j := job]);
    DecidersFrame(s, s');
    TokensFrame(bind, s, s');
    forall k | k in s'.jobs ensures JobOk(s', k) {
      if k != j { assert JobOk(s, k); }
    }
  }

  /** A decider that has not enqueued its job knows there is none. */
  lemma NoJobYet(bind: Binder, s: State, d: Id)
    requires HandlersOk(bind, s)
    requires d in s.deciders && s.deciders[d].pc == ReadyToEnqueue
    ensures s.deciders[d].approval in s.winners && WinnerOk(s, s.deciders[d].approval)
    ensures forall j :: j in s.jobs ==> s.jobs[j].approval != s.deciders[d].approval
  {
    assert DeciderOk(s, d);
    forall j | j in s.jobs ensures s.jobs[j].approval != s.deciders[d].approval {
      assert JobOk(s, j);
    }
  }

  lemma NewJobKeepsHandlers(bind: Binder, s: State, d: Id, j: Id, m: nat)
    requires HandlersOk(bind, s)
    requires DeciderAt(s, d, ReadyToEnqueue) && j !in s.jobs && s.deciders[d].approval in s.approvals
    requires s.approvals[s.deciders[d].approval].call.Some? && s.approvals[s.deciders[d].approval].call.value in s.calls
    ensures HandlersOk(bind, DoEnqueue(s, d, j, m))
  {
    var a := s.deciders[d].approval;
    var c := s.approvals[a].call.value;
    NoJobYet(bind, s, d);
    AdvanceKeepsHandlers(bind, s, d, Finished);
    AddJobKeepsHandlers(bind, SetDecider(s, d, Finished), j, NewJob(a, c, s.calls[c].tool, m));
  }

  lemma NewJobKeeps(bind: Binder, s: State, d: Id, j: Id, m: nat)
    requires Inv(bind, s)
    requires DeciderAt(s, d, ReadyToEnqueue) && j !in s.jobs && s.deciders[d].approval in s.approvals
    requires s.approvals[s.deciders[d].approval].call.Some? && s.approvals[s.deciders[d].approval].call.value in s.calls
    ensures Inv(bind, DoEnqueue(s, d, j, m))
  {
    var s' := DoEnqueue(s, d, j, m);
    OnlyQueuedJobsCommit(bind, s);
    forall layer ensures Holds(bind, s', layer) {
      assert Holds(bind, s, layer);
      match layer
      case Handlers => NewJobKeepsHandlers(bind, s, d, j, m);
      case Workers => RunsFrame(bind, s, s');
      case Log => LogFrame(bind, s, s');
    }
  }

  lemma OnlyQueuedJobsCommit(bind: Binder, s: State)
    requires Inv(bind, s)
    ensures forall j :: j in s.commits ==> j in s.jobs
  {
    assert Holds(bind, s, Handlers);
  }

  lemma EnqueueKeeps(bind: Binder, s: State, d: Id, j: Id, m: nat)
    requires Inv(bind, s)
    ensures Inv(bind, DoEnqueue(s, d, j, m))
  {
    if DeciderAt(s, d, ReadyToEnqueue) && j !in s.jobs && s.deciders[d].approval in s.approvals {
      var a := s.deciders[d].approval;
      if s.approvals[a].call.None? {
        AdvanceDeciderKeeps(bind, s, d, Finished);
      } else if s.approvals[a].call.value !in s.calls {
        AdvanceDeciderKeeps(bind, s, d, Aborted);
      } else {
        NewJobKeeps(bind, s, d, j, m);
      }
    }
  }

  // ----- consuming a token and writing -----

  lemma ConsumeTokenKeeps(bind: Binder, s: State, r: Id)
    requires Inv(bind, s)
    ensures Inv(bind, DoConsumeToken(s, r))
  {
    if r in s.runs && s.runs[r].pc.Validated? && s.runs[r].pc.token in s.tokens {
      var s' := DoConsumeToken(s, r);
      RunFactsHold(bind, s, r);
      JobsAreUnique(bind, s);
      forall layer ensures Holds(bind, s', layer) {
        assert Holds(bind, s, layer);
        match layer
        case Handlers => HandlersFrame(bind, s, s');
        case Workers => ConsumeKeepsRuns(bind, s, r);
        case Log => ConsumeKeepsLog(bind, s, r);
      }
    }
  }

  lemma JobsAreUnique(bind: Binder, s: State)
    requires Inv(bind, s)
    ensures OneJobPerApproval(s)
  {
    assert Holds(bind, s, Handlers);
  }

  lemma ConsumeKeepsRuns(bind: Binder, s: State, r: Id)
    requires RunsOk(bind, s) && OneJobPerApproval(s)
    requires r in s.runs && s.runs[r].pc.Validated? && s.runs[r].pc.token in s.tokens
    ensures RunsOk(bind, DoConsumeToken(s, r))
  {
    var s' := DoConsumeToken(s, r);
    var t := s.runs[r].pc.token;
    assert RunOk(s, r);
    forall q | q in s'.runs
      ensures RunOk(s', q) && (s'.runs[q].pc.Validated? ==> ValidatedOk(bind, s', s'.jobs[s'.runs[q].job].approval, s'.runs[q].pc))
    {
      assert RunOk(s, q);
      if q != r && s.runs[q].pc.Validated? {
        // Another validated run of the same token would be the committed run of the same job.
        assert ValidatedOk(bind, s, s.jobs[s.runs[q].job].approval, s.runs[q].pc);
        assert s.runs[q].pc.token != t;
      }
    }
  }

  lemma ConsumeKeepsLog(bind: Binder, s: State, r: Id)
    requires LogOk(bind, s)
    requires r in s.runs && s.runs[r].job in s.jobs && s.runs[r].pc.Validated?
    requires ValidatedOk(bind, s, s.jobs[s.runs[r].job].approval, s.runs[r].pc)
    ensures LogOk(bind, DoConsumeToken(s, r))
  {
    var s' := DoConsumeToken(s, r);
    var n := |s.consumptions|;
    forall i | 0 <= i < |s'.consumptions|
      ensures ConsumptionOk(bind, s', s'.consumptions[i]) && (i < n ==> s'.consumptions[i].token != s'.consumptions[n].token)
    {
      if i < n { assert ConsumptionOk(bind, s, s.consumptions[i]); }
    }
    forall i | 0 <= i < |s'.effects| ensures EffectOk(bind, s', s'.effects[i]) {
      assert EffectOk(bind, s, s.effects[i]);
      ConsumptionSurvives(s, s', s.effects[i].token, s.effects[i].run, s.effects[i].args);
    }
    forall q | q in s'.runs && s'.runs[q].pc.Spent? ensures SpentOk(s', q) {
      if q == r {
        assert s'.consumptions[n].token == s'.runs[q].pc.token;
      } else {
        assert SpentOk(s, q);
        ConsumptionSurvives(s, s', s.runs[q].pc.token, q, s.runs[q].pc.call.args);
      }
    }
  }

  lemma ConsumptionSurvives(s: State, s': State, t: Id, r: Id, args: string)
    requires HasConsumption(s, t, r, args)
    requires s.consumptions <= s'.consumptions
    ensures HasConsumption(s', t, r, args)
  {
    var i :| 0 <= i < |s.consumptions| && s.consumptions[i].token == t && s.consumptions[i].run == r && s.consumptions[i].args == args;
    assert s'.consumptions[i] == s.consumptions[i];
  }

  lemma PerformWriteKeeps(bind: Binder, s: State, r: Id)
    requires Inv(bind, s)
    ensures Inv(bind, DoPerformWrite(s, r))
  {
    if r in s.runs && s.runs[r].pc.Spent? {
      OpenInv(bind, s);
      HandlersFrame(bind, s, DoPerformWrite(s, r));
      WriteKeepsRuns(bind, s, r);
      WriteKeepsLog(bind, s, r);
      CloseInv(bind, DoPerformWrite(s, r));
    }
  }

  lemma WriteKeepsRuns(bind: Binder, s: State, r: Id)
    requires RunsOk(bind, s)
    requires r in s.runs && s.runs[r].pc.Spent?
    ensures RunsOk(bind, DoPerformWrite(s, r))
  {
    var s' := DoPerformWrite(s, r);
    forall q | q in s'.runs
      ensures RunOk(s', q) && (s'.runs[q].pc.Validated? ==> ValidatedOk(bind, s', s'.jobs[s'.runs[q].job].approval, s'.runs[q].pc))
    {
      assert RunOk(s, q);
      assert s.runs[q].pc.Validated? ==> ValidatedOk(bind, s, s.jobs[s.runs[q].job].approval, s.runs[q].pc);
    }
  }

  lemma WriteKeepsEffects(bind: Binder, s: State, r: Id, i: nat)
    requires LogOk(bind, s)
    requires r in s.runs && s.runs[r].pc.Spent? && i <= |s.effects|
    ensures var s' := DoPerformWrite(s, r);
            EffectOk(bind, s', s'.effects[i]) && (i < |s.effects| ==> s'.effects[i].token != s'.effects[|s.effects|].token)
  {
    var s' := DoPerformWrite(s, r);
    assert SpentOk(s, r);
    ConsumptionSurvives(s, s', s'.effects[i].token, s'.effects[i].run, s'.effects[i].args);
    if i < |s.effects| {
      assert EffectOk(bind, s, s.effects[i]);
    }
  }

  lemma WriteKeepsSpent(bind: Binder, s: State, r: Id, q: Id)
    requires LogOk(bind, s)
    requires r in s.runs && s.runs[r].pc.Spent? && q in s.runs
    ensures var s' := DoPerformWrite(s, r); q in s'.runs && (s'.runs[q].pc.Spent? ==> SpentOk(s', q))
  {
    var s' := DoPerformWrite(s, r);
    if s'.runs[q].pc.Spent? {
      assert SpentOk(s, q);
      ConsumptionSurvives(s, s', s.runs[q].pc.token, q, s.runs[q].pc.call.args);
    }
  }

  lemma WriteKeepsLog(bind: Binder, s: State, r: Id)
    requires LogOk(bind, s)
    requires r in s.runs && s.runs[r].pc.Spent?
    ensures LogOk(bind, DoPerformWrite(s, r))
  {
    var s' := DoPerformWrite(s, r);
    forall i | 0 <= i < |s'.consumptions| ensures ConsumptionOk(bind, s', s'.consumptions[i]) {
      assert ConsumptionOk(bind, s, s.consumptions[i]);
    }
    forall i | 0 <= i < |s'.effects|
      ensures EffectOk(bind, s', s'.effects[i]) && (i < |s.effects| ==> s'.effects[i].token != s'.effects[|s.effects|].token)
    {
      WriteKeepsEffects(bind, s, r, i);
    }
    forall q | q in s'.runs && s'.runs[q].pc.Spent? ensures SpentOk(s', q) {
      WriteKeepsSpent(bind, s, r, q);
    }
  }

  // ----- every run -----

  lemma RequestStepKeeps(bind: Binder, s: State, step: Step)
    requires Inv(bind, s)
    requires step.Tick? || step.ChangeGrants? || step.OpenCall? || step.OpenApproval?
             || step.ModifyArgs? || step.OverwriteArgs? || step.Decline?
    ensures Inv(bind, Do(bind, s, step))
  {
    match step {
      case ModifyArgs(a, args) => ModifyArgsIsRequest(bind, s, a, args);
      case OverwriteArgs(c, args) => OverwriteArgsIsRequest(s, c, args);
      case OpenCall(c, record) => OpenCallIsRequest(s, c, record);
      case OpenApproval(a, request) => OpenApprovalIsRequest(s, a, request);
      case Decline(a, decision) => DeclineIsRequest(s, a, decision);
      case _ =>
    }
    RequestsKeep(bind, s, Do(bind, s, step));
  }

  lemma ReadCallKeeps(bind: Binder, s: State, d: Id)
    requires Inv(bind, s)
    ensures Inv(bind, DoReadCall(s, d))
  {
    if d in s.deciders && s.deciders[d].pc == Decided && s.deciders[d].approval in s.approvals {
      var a := s.approvals[s.deciders[d].approval];
      if a.call.None? {
        AdvanceDeciderKeeps(bind, s, d, ReadyToEnqueue);
      } else if a.call.value !in s.calls {
        AdvanceDeciderKeeps(bind, s, d, Aborted);
      } else if s.calls[a.call.value].grant.None? {
        AdvanceDeciderKeeps(bind, s, d, ReadyToEnqueue);
      } else {
        AdvanceDeciderKeeps(bind, s, d, HaveCall(s.calls[a.call.value]));
      }
    }
  }

  lemma ReadGrantKeeps(bind: Binder, s: State, d: Id)
    requires Inv(bind, s)
    ensures Inv(bind, DoReadGrant(s, d))
  {
    if d in s.deciders && s.deciders[d].pc.HaveCall? {
      var call := s.deciders[d].pc.call;
      if call.grant.None? || call.grant.value !in s.grants {
        AdvanceDeciderKeeps(bind, s, d, Aborted);
      } else if RequiresToken(s.grants[call.grant.value], call.tool) {
        AdvanceDeciderKeeps(bind, s, d, HaveGrant(call, s.grants[call.grant.value]));
      } else {
        AdvanceDeciderKeeps(bind, s, d, ReadyToEnqueue);
      }
    }
  }

  lemma LookupTokenKeeps(bind: Binder, s: State, d: Id)
    requires Inv(bind, s)
    ensures Inv(bind, DoLookupToken(s, d))
  {
    if d in s.deciders && s.deciders[d].pc.HaveGrant? {
      if exists t :: t in s.tokens && TokenFor(s, s.deciders[d].approval, t) {
        AdvanceDeciderKeeps(bind, s, d, ReadyToEnqueue);
      } else {
        AdvanceDeciderKeeps(bind, s, d, NoToken(s.deciders[d].pc.call));
      }
    }
  }

  lemma DeciderStepKeeps(bind: Binder, s: State, step: Step)
    requires Inv(bind, s)
    requires step.CheckApproval? || step.DecideApproved? || step.ReadCall? || step.ReadGrant?
             || step.LookupToken? || step.CreateToken? || step.Enqueue?
    ensures Inv(bind, Do(bind, s, step))
  {
    match step {
      case CheckApproval(d, a) => CheckApprovalKeeps(bind, s, d, a);
      case DecideApproved(d) => DecideApprovedKeeps(bind, s, d);
      case ReadCall(d) => ReadCallKeeps(bind, s, d);
      case ReadGrant(d) => ReadGrantKeeps(bind, s, d);
      case LookupToken(d) => LookupTokenKeeps(bind, s, d);
      case CreateToken(d, t) => CreateTokenKeeps(bind, s, d, t);
      case Enqueue(d, j, m) => EnqueueKeeps(bind, s, d, j, m);
    }
  }

  lemma StartJobKeeps(bind: Binder, s: State, j: Id, r: Id, w: string)
    requires Inv(bind, s)
    ensures Inv(bind, DoStartJob(s, j, r, w))
  {
    OpenInv(bind, s);
    StartJobMoves(bind, s, j, r, w);
    MovesRunKeeps(bind, s, DoStartJob(s, j, r, w), r);
  }

  lemma RecoverExpiredKeeps(bind: Binder, s: State, j: Id, r: Id, w: string)
    requires Inv(bind, s)
    ensures Inv(bind, DoRecoverExpired(s, j, r, w))
  {
    OpenInv(bind, s);
    RecoverExpiredMoves(bind, s, j, r, w);
    MovesRunKeeps(bind, s, DoRecoverExpired(s, j, r, w), r);
  }

  lemma ResumeClosingKeeps(bind: Binder, s: State, j: Id, r: Id, w: string)
    requires Inv(bind, s)
    ensures Inv(bind, DoResumeClosing(s, j, r, w))
  {
    OpenInv(bind, s);
    ResumeClosingMoves(bind, s, j, r, w);
    MovesRunKeeps(bind, s, DoResumeClosing(s, j, r, w), r);
  }

  lemma CancelJobKeeps(bind: Binder, s: State, j: Id)
    requires Inv(bind, s)
    ensures Inv(bind, DoCancelJob(s, j))
  {
    if j in s.jobs && (s.jobs[j].status == Queued || s.jobs[j].status == Running) {
      CancelKeeps(bind, s, j, s.jobs[j].(status := CancelRequested));
    }
  }

  lemma AdvanceCancelKeeps(bind: Binder, s: State, j: Id, ack: bool)
    requires Inv(bind, s)
    ensures Inv(bind, DoAdvanceCancel(s, j, ack))
  {
    if j in s.jobs && s.jobs[j].status == CancelRequested {
      if ack {
        CancelKeeps(bind, s, j, s.jobs[j].(status := Canceled));
      } else {
        CancelKeeps(bind, s, j, s.jobs[j].(generation := s.jobs[j].generation + 1));
      }
    }
  }

  /** The steps that move one run, and the run they move. */
  function RunMovedBy(step: Step): Option<Id> {
    match step
    case RenewLease(r, _) => Some(r)
    case LoadApproval(r) => Some(r)
    case LoadCall(r) => Some(r)
    case Precheck(r, _, _) => Some(r)
    case FindSpent(r, _) => Some(r)
    case BeginExecuting(r) => Some(r)
    case ValidateToken(r, _, _) => Some(r)
    case PerformOther(r) => Some(r)
    case RecordToolResult(r) => Some(r)
    case RecordToolError(r) => Some(r)
    case FailPrecommit(r) => Some(r)
    case FailRetrySafe(r) => Some(r)
    case FailKnown(r) => Some(r)
    case FailUnknown(r) => Some(r)
    case CompleteRun(r) => Some(r)
    case ReconcileError(r) => Some(r)
    case ReconcileUnknown(r) => Some(r)
    case PrepareTail(r) => Some(r)
    case FinishClosing(r) => Some(r)
    case _ => None
  }

  lemma AttemptStepKeeps(bind: Binder, s: State, step: Step, r: Id)
    requires Inv(bind, s)
    requires RunMovedBy(step) == Some(r) && !EndsAttempt(step) && !SettlesJob(step)
    ensures Inv(bind, Do(bind, s, step))
  {
    RunFactsHold(bind, s, r);
    match step {
      case RenewLease(r, lease) =>
        RenewLeaseMoves(bind, s, r, lease);
        MovesRunKeeps(bind, s, DoRenewLease(s, r, lease), r);
      case LoadApproval(r) =>
        LoadApprovalMoves(bind, s, r);
        MovesRunKeeps(bind, s, DoLoadApproval(s, r), r);
      case LoadCall(r) =>
        LoadCallMoves(bind, s, r);
        MovesRunKeeps(bind, s, DoLoadCall(s, r), r);
      case Precheck(r, t, denied) =>
        PrecheckMoves(bind, s, r, t, denied);
        MovesRunKeeps(bind, s, DoPrecheck(bind, s, r, t, denied), r);
      case FindSpent(r, t) =>
        FindSpentMoves(bind, s, r, t);
        MovesRunKeeps(bind, s, DoFindSpent(s, r, t), r);
      case BeginExecuting(r) =>
        BeginExecutingMoves(bind, s, r);
        MovesRunKeeps(bind, s, DoBeginExecuting(s, r), r);
      case ValidateToken(r, t, denied) =>
        ValidateTokenMoves(bind, s, r, t, denied);
        MovesRunKeeps(bind, s, DoValidateToken(bind, s, r, t, denied), r);
      case PerformOther(r) =>
        PerformOtherMoves(bind, s, r);
        MovesRunKeeps(bind, s, DoPerformOther(s, r), r);
      case RecordToolResult(r) =>
        RecordToolResultMoves(bind, s, r);
        MovesRunKeeps(bind, s, DoRecordToolResult(s, r), r);
      case RecordToolError(r) =>
        RecordToolErrorMoves(bind, s, r);
        MovesRunKeeps(bind, s, DoRecordToolError(s, r), r);
    }
  }

  /** The steps by which a worker gives its job up. */
  predicate EndsAttempt(step: Step) {
    step.FailPrecommit? || step.FailRetrySafe? || step.FailKnown? || step.FailUnknown? || step.CompleteRun?
  }

  /** The steps that settle a finalizing job. */
  predicate SettlesJob(step: Step) {
    step.ReconcileError? || step.ReconcileUnknown? || step.PrepareTail? || step.FinishClosing?
  }

  lemma FailPrecommitKeeps(bind: Binder, s: State, r: Id)
    requires Inv(bind, s)
    ensures Inv(bind, DoFailPrecommit(s, r))
  {
    RunFactsHold(bind, s, r);
    FailPrecommitMoves(bind, s, r);
    MovesRunKeeps(bind, s, DoFailPrecommit(s, r), r);
  }

  lemma FailRetrySafeKeeps(bind: Binder, s: State, r: Id)
    requires Inv(bind, s)
    ensures Inv(bind, DoFailRetrySafe(s, r))
  {
    RunFactsHold(bind, s, r);
    FailRetrySafeMoves(bind, s, r);
    MovesRunKeeps(bind, s, DoFailRetrySafe(s, r), r);
  }

  lemma FailKnownKeeps(bind: Binder, s: State, r: Id)
    requires Inv(bind, s)
    ensures Inv(bind, DoFailKnown(s, r))
  {
    RunFactsHold(bind, s, r);
    FailKnownMoves(bind, s, r);
    MovesRunKeeps(bind, s, DoFailKnown(s, r), r);
  }

  lemma FailUnknownKeeps(bind: Binder, s: State, r: Id)
    requires Inv(bind, s)
    ensures Inv(bind, DoFailUnknown(s, r))
  {
    RunFactsHold(bind, s, r);
    FailUnknownMoves(bind, s, r);
    MovesRunKeeps(bind, s, DoFailUnknown(s, r), r);
  }

  lemma CompleteRunKeeps(bind: Binder, s: State, r: Id)
    requires Inv(bind, s)
    ensures Inv(bind, DoCompleteRun(s, r))
  {
    RunFactsHold(bind, s, r);
    CompleteRunMoves(bind, s, r);
    MovesRunKeeps(bind, s, DoCompleteRun(s, r), r);
  }

  lemma ReconcileErrorKeeps(bind: Binder, s: State, r: Id)
    requires Inv(bind, s)
    ensures Inv(bind, DoReconcileError(s, r))
  {
    RunFactsHold(bind, s, r);
    ReconcileErrorMoves(bind, s, r);
    MovesRunKeeps(bind, s, DoReconcileError(s, r), r);
  }

  lemma ReconcileUnknownKeeps(bind: Binder, s: State, r: Id)
    requires Inv(bind, s)
    ensures Inv(bind, DoReconcileUnknown(s, r))
  {
    RunFactsHold(bind, s, r);
    ReconcileUnknownMoves(bind, s, r);
    MovesRunKeeps(bind, s, DoReconcileUnknown(s, r), r);
  }

  lemma PrepareTailKeeps(bind: Binder, s: State, r: Id)
    requires Inv(bind, s)
    ensures Inv(bind, DoPrepareTail(s, r))
  {
    RunFactsHold(bind, s, r);
    PrepareTailMoves(bind, s, r);
    MovesRunKeeps(bind, s, DoPrepareTail(s, r), r);
  }

  lemma FinishClosingKeeps(bind: Binder, s: State, r: Id)
    requires Inv(bind, s)
    ensures Inv(bind, DoFinishClosing(s, r))
  {
    RunFactsHold(bind, s, r);
    FinishClosingMoves(bind, s, r);
    MovesRunKeeps(bind, s, DoFinishClosing(s, r), r);
  }

  lemma EndStepKeeps(bind: Binder, s: State, step: Step)
    requires Inv(bind, s) && EndsAttempt(step)
    ensures Inv(bind, Do(bind, s, step))
  {
    match step {
      case FailPrecommit(r) => FailPrecommitKeeps(bind, s, r);
      case FailRetrySafe(r) => FailRetrySafeKeeps(bind, s, r);
      case FailKnown(r) => FailKnownKeeps(bind, s, r);
      case FailUnknown(r) => FailUnknownKeeps(bind, s, r);
      case CompleteRun(r) => CompleteRunKeeps(bind, s, r);
    }
  }

  lemma SettleStepKeeps(bind: Binder, s: State, step: Step)
    requires Inv(bind, s) && SettlesJob(step)
    ensures Inv(bind, Do(bind, s, step))
  {
    match step {
      case ReconcileError(r) => ReconcileErrorKeeps(bind, s, r);
      case ReconcileUnknown(r) => ReconcileUnknownKeeps(bind, s, r);
      case PrepareTail(r) => PrepareTailKeeps(bind, s, r);
      case FinishClosing(r) => FinishClosingKeeps(bind, s, r);
    }
  }

  /** Every step of every handler, worker and operator keeps the invariant. */
  lemma StepKeepsInv(bind: Binder, s: State, step: Step)
    requires Inv(bind, s)
    ensures Inv(bind, Do(bind, s, step))
  {
    if RunMovedBy(step).Some? {
      var r := RunMovedBy(step).value;
      if EndsAttempt(step) {
        EndStepKeeps(bind, s, step);
      } else if SettlesJob(step) {
        SettleStepKeeps(bind, s, step);
      } else {
        AttemptStepKeeps(bind, s, step, r);
      }
    } else if step.ConsumeToken? {
      ConsumeTokenKeeps(bind, s, step.run);
    } else if step.PerformWrite? {
      PerformWriteKeeps(bind, s, step.run);
    } else if step.StartJob? {
      StartJobKeeps(bind, s, step.job, step.run, step.worker);
    } else if step.RecoverExpired? {
      RecoverExpiredKeeps(bind, s, step.job, step.run, step.worker);
    } else if step.ResumeClosing? {
      ResumeClosingKeeps(bind, s, step.job, step.run, step.worker);
    } else if step.CancelJob? {
      CancelJobKeeps(bind, s, step.job);
    } else if step.AdvanceCancel? {
      AdvanceCancelKeeps(bind, s, step.job, step.acknowledge);
    } else if step.CheckApproval? || step.DecideApproved? || step.ReadCall? || step.ReadGrant?
              || step.LookupToken? || step.CreateToken? || step.Enqueue? {
      DeciderStepKeeps(bind, s, step);
    } else {
      RequestStepKeeps(bind, s, step);
    }
  }

  lemma {:induction false} InvAlways(bind: Binder, steps: seq<Step>)
    ensures Inv(bind, DoAll(bind, Init(), steps))
  {
    if steps != [] {
      var before := steps[..|steps| - 1];
      InvAlways(bind, before);
      StepKeepsInv(bind, DoAll(bind, Init(), before), steps[|steps| - 1]);
    }
  }
}
