/**
  The approval and commit-token protocol as atomic store steps.

  Every call into the store or the execution queue is one step, and the steps of
  concurrent handlers interleave freely.  A `Decider` is one run of the approve
  handler; a `Run` is one worker's attempt at an execution job.  A step whose guard
  does not hold leaves the state unchanged: that is the store refusing the call.

  The fields after `runs` are history: no step reads them to decide anything.
 */
module ApprovalProtocol {
  import opened Wrappers

  type Id = nat
  type Time = int
  type Binder = (string, string) -> Option<Binding>

  /** The digest of the arguments and the connector target they address. */
  datatype Binding = Binding(hash: string, target: string)

  datatype ApprovalStatus = Pending | Approved | Rejected | Expired

  datatype Approval = Approval(
    session: Id,
    call: Option<Id>,
    status: ApprovalStatus,
    expiresAt: Option<Time>)

  datatype CallStatus = CallRunning | WaitingApproval | CallDenied | CallCompleted | CallFailed

  datatype ToolCall = ToolCall(
    session: Id,
    tool: string,
    args: string,
    grant: Option<Id>,
    hash: Option<string>,
    target: string,
    status: CallStatus)

  datatype Grant = Grant(
    active: bool,
    expiresAt: Option<Time>,
    mode: string,
    externalWrite: set<string>)

  datatype TokenStatus = Issued | Consumed

  datatype Token = Token(
    approval: Id,
    call: Id,
    grant: Id,
    session: Id,
    tool: string,
    hash: string,
    target: string,
    status: TokenStatus,
    expiresAt: Time,
    consumedAt: Option<Time>)

  datatype JobStatus =
    | Queued | Running | Executing | Finalizing | CancelRequested
    | Completed | Failed | OutcomeUnknown | Canceled

  /** What the job's finalization details say about why it is being finalized. */
  datatype Stage = NoStage | PrecommitFailure | RetrySafeFailure | KnownFailure
                 | ToolExecution | Reconciliation | TailPending

  datatype Job = Job(
    approval: Id,
    call: Id,
    tool: string,
    status: JobStatus,
    worker: Option<string>,
    generation: nat,
    lease: Option<Time>,
    stage: Stage,
    failed: bool,
    attempts: nat,
    maxAttempts: nat)

  datatype DeciderPc =
    | Checked
    | Decided
    | HaveCall(call: ToolCall)
    | HaveGrant(call: ToolCall, grant: Grant)
    | NoToken(call: ToolCall)
    | ReadyToEnqueue
    | Finished
    | Aborted

  datatype Decider = Decider(approval: Id, checkedAt: Time, pc: DeciderPc)

  datatype RunPc =
    | Claimed
    | HaveApproval(approval: Approval)
    | Loaded(approval: Approval, call: ToolCall)
    | Prechecked(approval: Approval, call: ToolCall)
    | Committed(approval: Approval, call: ToolCall)
    | Validated(approval: Approval, call: ToolCall, token: Id, validatedAt: Time)
    | Spent(call: ToolCall, token: Id)
    | Performed
    | Reported
    | Doomed
    | ErrorRecorded
    | Closing(retryable: bool)
    | Over

  datatype Run = Run(job: Id, worker: string, generation: nat, pc: RunPc)

  /** History: how a token came to be issued. */
  datatype Issue = Issue(decider: Id, checkedAt: Time, call: ToolCall)

  /** History: one use of a token. */
  datatype Consumption = Consumption(token: Id, run: Id, validatedAt: Time, at: Time, args: string)

  /** History: one external write made by a worker. */
  datatype Effect = Effect(token: Id, run: Id, tool: string, args: string)

  datatype State = State(
    now: Time,
    approvals: map<Id, Approval>,
    calls: map<Id, ToolCall>,
    grants: map<Id, Grant>,
    tokens: map<Id, Token>,
    jobs: map<Id, Job>,
    deciders: map<Id, Decider>,
    runs: map<Id, Run>,
    winners: map<Id, Id>,
    issues: map<Id, Issue>,
    commits: map<Id, Id>,
    toolErrors: set<(Id, nat)>,
    toolResults: set<(Id, nat)>,
    consumptions: seq<Consumption>,
    effects: seq<Effect>)

  const DEFAULT_TOKEN_LIFETIME: Time := 900
  const LEASE: Time := 300

  datatype Step =
    | Tick(elapsed: nat)
    | ChangeGrants(grants: map<Id, Grant>)
    | OpenCall(call: Id, record: ToolCall)
    | OpenApproval(approval: Id, request: Approval)
    | ModifyArgs(approval: Id, args: string)
    | OverwriteArgs(call: Id, args: string)
    | Decline(approval: Id, decision: ApprovalStatus)
    | CheckApproval(decider: Id, approval: Id)
    | DecideApproved(decider: Id)
    | ReadCall(decider: Id)
    | ReadGrant(decider: Id)
    | LookupToken(decider: Id)
    | CreateToken(decider: Id, token: Id)
    | Enqueue(decider: Id, job: Id, maxAttempts: nat)
    | StartJob(job: Id, run: Id, worker: string)
    | RenewLease(run: Id, lease: Time)
    | CancelJob(job: Id)
    | AdvanceCancel(job: Id, acknowledge: bool)
    | LoadApproval(run: Id)
    | LoadCall(run: Id)
    | Precheck(run: Id, token: Id, denied: bool)
    | FindSpent(run: Id, token: Id)
    | BeginExecuting(run: Id)
    | ValidateToken(run: Id, token: Id, denied: bool)
    | ConsumeToken(run: Id)
    | PerformWrite(run: Id)
    | PerformOther(run: Id)
    | RecordToolResult(run: Id)
    | RecordToolError(run: Id)
    | FailPrecommit(run: Id)
    | FailRetrySafe(run: Id)
    | FailKnown(run: Id)
    | FailUnknown(run: Id)
    | CompleteRun(run: Id)
    | RecoverExpired(job: Id, run: Id, worker: string)
    | ResumeClosing(job: Id, run: Id, worker: string)
    | ReconcileError(run: Id)
    | ReconcileUnknown(run: Id)
    | PrepareTail(run: Id)
    | FinishClosing(run: Id)

  function Init(): State {
    State(0, map[], map[], map[], map[], map[], map[], map[], map[], map[], map[], {}, {}, [], [])
  }

  predicate NativeConnectorTool(tool: string) {
    tool == "native.connector.call" || "native." <= tool
  }

  /** Whether a grant makes calls of this tool bind to a commit token. */
  predicate RequiresToken(grant: Grant, tool: string) {
    grant.mode == "commit_write" && (tool == "mcp.call" || NativeConnectorTool(tool) || tool in grant.externalWrite)
  }

  /** The tools whose approved execution consumes a token before it writes. */
  predicate ConsumesToken(tool: string) {
    tool == "mcp.call" || tool == "native.connector.call"
  }

  predicate PastExpiry(expiresAt: Option<Time>, now: Time) {
    expiresAt.Some? && expiresAt.value <= now
  }

  predicate ApprovalExpiredAt(approval: Approval, now: Time) {
    approval.status == Pending && PastExpiry(approval.expiresAt, now)
  }

  // ----- requests and edits -----

  function DoOpenCall(s: State, call: Id, record: ToolCall): State {
    if call in s.calls then s else s.(calls := s.calls[call := record])
  }

  function DoOpenApproval(s: State, approval: Id, request: Approval): State {
    if approval in s.approvals || request.status != Pending then s
    else s.(approvals := s.approvals[approval := request])
  }

  /** Whether an edit of this call's arguments must recompute its binding. */
  function BindingRequired(s: State, call: ToolCall): Option<bool> {
    match call.grant
    case None => Some(call.hash.Some?)
    case Some(g) => if g in s.grants then Some(RequiresToken(s.grants[g], call.tool)) else None
  }

  function EditedCall(bind: Binder, call: ToolCall, args: string, required: bool): Option<ToolCall> {
    if call.status != WaitingApproval then None
    else if required then
      match bind(call.tool, args)
      case None => None
      case Some(b) => Some(call.(args := args, hash := Some(b.hash), target := b.target))
    else Some(call.(args := args, hash := None))
  }

  function DoModifyArgs(bind: Binder, s: State, approval: Id, args: string): State {
    if approval !in s.approvals then s
    else
      var a := s.approvals[approval];
      if a.status != Pending || PastExpiry(a.expiresAt, s.now) || a.call.None? || a.call.value !in s.calls then s
      else
        var call := s.calls[a.call.value];
        match BindingRequired(s, call)
        case None => s
        case Some(required) =>
          match EditedCall(bind, call, args, required)
          case None => s
          case Some(edited) => s.(calls := s.calls[a.call.value := edited])
  }

  /** The store's raw edit, which leaves the recorded digest alone. */
  function DoOverwriteArgs(s: State, call: Id, args: string): State {
    if call in s.calls && s.calls[call].status == WaitingApproval then
      s.(calls := s.calls[call := s.calls[call].(args := args)])
    else s
  }

  /** Declining again with the same decision still denies a call left waiting. */
  function DoDecline(s: State, approval: Id, decision: ApprovalStatus): State {
    if approval in s.approvals && (s.approvals[approval].status == Pending || s.approvals[approval].status == decision)
       && (decision == Rejected || decision == Expired)
       && (s.approvals[approval].call.Some? ==> s.approvals[approval].call.value in s.calls) then
      var a := s.approvals[approval];
      var calls :=
        if a.call.Some? && s.calls[a.call.value].status == WaitingApproval then
          s.calls[a.call.value := s.calls[a.call.value].(status := CallDenied)]
        else s.calls;
      s.(approvals := s.approvals[approval := a.(status := decision)], calls := calls)
    else s
  }

  // ----- the approve handler -----

  function SetDecider(s: State, d: Id, pc: DeciderPc): State
    requires d in s.deciders
  {
    s.(deciders := s.deciders[d := s.deciders[d].(pc := pc)])
  }

  predicate DeciderAt(s: State, d: Id, pc: DeciderPc) {
    d in s.deciders && s.deciders[d].pc == pc
  }

  function DoCheckApproval(s: State, d: Id, approval: Id): State {
    if d in s.deciders || approval !in s.approvals then s
    else if s.approvals[approval].status != Pending || ApprovalExpiredAt(s.approvals[approval], s.now) then s
    else s.(deciders := s.deciders[d := Decider(approval, s.now, Checked)])
  }

  /** The compare-and-set from pending that makes one decider the winner. */
  function DoDecideApproved(s: State, d: Id): State {
    if !DeciderAt(s, d, Checked) then s
    else
      var a := s.deciders[d].approval;
      if a !in s.approvals || s.approvals[a].status != Pending then SetDecider(s, d, Aborted)
      else
        SetDecider(s.(approvals := s.approvals[a := s.approvals[a].(status := Approved)],
                      winners := s.winners[a := d]), d, Decided)
  }

  function DoReadCall(s: State, d: Id): State {
    if !DeciderAt(s, d, Decided) || s.deciders[d].approval !in s.approvals then s
    else
      var a := s.approvals[s.deciders[d].approval];
      if a.call.None? then SetDecider(s, d, ReadyToEnqueue)
      else if a.call.value !in s.calls then SetDecider(s, d, Aborted)
      else
        var call := s.calls[a.call.value];
        SetDecider(s, d, if call.grant.None? then ReadyToEnqueue else HaveCall(call))
  }

  function DoReadGrant(s: State, d: Id): State {
    if d !in s.deciders || !s.deciders[d].pc.HaveCall? then s
    else
      var call := s.deciders[d].pc.call;
      if call.grant.None? || call.grant.value !in s.grants then SetDecider(s, d, Aborted)
      else
        var grant := s.grants[call.grant.value];
        SetDecider(s, d, if RequiresToken(grant, call.tool) then HaveGrant(call, grant) else ReadyToEnqueue)
  }

  function DoLookupToken(s: State, d: Id): State {
    if d !in s.deciders || !s.deciders[d].pc.HaveGrant? then s
    else if exists t :: t in s.tokens && TokenFor(s, s.deciders[d].approval, t) then
      SetDecider(s, d, ReadyToEnqueue)
    else SetDecider(s, d, NoToken(s.deciders[d].pc.call))
  }

  function IssuedToken(s: State, approvalId: Id, approval: Approval, call: ToolCall, b: Binding): Token
    requires approval.call.Some? && call.grant.Some?
  {
    Token(approvalId, approval.call.value, call.grant.value, approval.session, call.tool, b.hash, b.target,
          Issued, if approval.expiresAt.Some? then approval.expiresAt.value else s.now + DEFAULT_TOKEN_LIFETIME, None)
  }

  /** The binding the token takes from the call, unless it contradicts the recorded one. */
  function MatchingBinding(bind: Binder, call: ToolCall): Option<Binding> {
    match bind(call.tool, call.args)
    case None => None
    case Some(b) => if call.hash == Some(b.hash) && call.target == b.target then Some(b) else None
  }

  function DoCreateToken(bind: Binder, s: State, d: Id, t: Id): State {
    if d !in s.deciders || !s.deciders[d].pc.NoToken? || t in s.tokens then s
    else
      var call := s.deciders[d].pc.call;
      var a := s.deciders[d].approval;
      match MatchingBinding(bind, call)
      case None => SetDecider(s, d, Aborted)
      case Some(b) =>
        if a !in s.approvals || s.approvals[a].call.None? || call.grant.None? then SetDecider(s, d, Aborted)
        else
          SetDecider(s.(tokens := s.tokens[t := IssuedToken(s, a, s.approvals[a], call, b)],
                        issues := s.issues[t := Issue(d, s.deciders[d].checkedAt, call)]), d, ReadyToEnqueue)
  }

  function NewJob(approvalId: Id, callId: Id, tool: string, maxAttempts: nat): Job {
    Job(approvalId, callId, tool, Queued, None, 0, None, NoStage, false, 0, maxAttempts)
  }

  function DoEnqueue(s: State, d: Id, j: Id, maxAttempts: nat): State {
    if !DeciderAt(s, d, ReadyToEnqueue) || j in s.jobs || s.deciders[d].approval !in s.approvals then s
    else
      var a := s.approvals[s.deciders[d].approval];
      if a.call.None? then SetDecider(s, d, Finished)
      else if a.call.value !in s.calls then SetDecider(s, d, Aborted)
      else
        SetDecider(s.(jobs := s.jobs[j := NewJob(s.deciders[d].approval, a.call.value,
                                                 s.calls[a.call.value].tool, maxAttempts)]), d, Finished)
  }

  // ----- the execution queue -----

  predicate LeaseLive(job: Job, now: Time) {
    job.lease.Some? && now < job.lease.value
  }

  /** The queue's ownership test: worker, claim generation and an unexpired lease. */
  predicate Owns(s: State, r: Id) {
    && r in s.runs
    && s.runs[r].job in s.jobs
    && var job := s.jobs[s.runs[r].job];
       job.worker == Some(s.runs[r].worker) && job.generation == s.runs[r].generation && LeaseLive(job, s.now)
  }

  function SetJob(s: State, r: Id, job: Job): State
    requires r in s.runs
  {
    s.(jobs := s.jobs[s.runs[r].job := job])
  }

  function SetRun(s: State, r: Id, pc: RunPc): State
    requires r in s.runs
  {
    s.(runs := s.runs[r := s.runs[r].(pc := pc)])
  }

  function JobOf(s: State, r: Id): Job
    requires r in s.runs && s.runs[r].job in s.jobs
  {
    s.jobs[s.runs[r].job]
  }

  function DoStartJob(s: State, j: Id, r: Id, worker: string): State {
    if j !in s.jobs || r in s.runs then s
    else
      var job := s.jobs[j];
      if job.status == Queued || (job.status == Running && !LeaseLive(job, s.now)) then
        s.(jobs := s.jobs[j := job.(status := Running, worker := Some(worker), generation := job.generation + 1,
                                    lease := Some(s.now + LEASE), stage := NoStage, failed := false,
                                    attempts := job.attempts + 1)],
           runs := s.runs[r := Run(j, worker, job.generation + 1, Claimed)])
      else s
  }

  function DoRenewLease(s: State, r: Id, lease: Time): State {
    if Owns(s, r) && JobOf(s, r).status in {Running, Executing, Finalizing, CancelRequested} then
      SetJob(s, r, JobOf(s, r).(lease := Some(lease)))
    else s
  }

  function DoCancelJob(s: State, j: Id): State {
    if j in s.jobs && (s.jobs[j].status == Queued || s.jobs[j].status == Running) then
      s.(jobs := s.jobs[j := s.jobs[j].(status := CancelRequested)])
    else s
  }

  function DoAdvanceCancel(s: State, j: Id, acknowledge: bool): State {
    if j in s.jobs && s.jobs[j].status == CancelRequested then
      s.(jobs := s.jobs[j := if acknowledge then s.jobs[j].(status := Canceled)
                             else s.jobs[j].(generation := s.jobs[j].generation + 1)])
    else s
  }

  // ----- a worker's attempt -----

  function DoLoadApproval(s: State, r: Id): State {
    if r in s.runs && s.runs[r].pc == Claimed && s.runs[r].job in s.jobs then
      var a := JobOf(s, r).approval;
      if a in s.approvals && s.approvals[a].status == Approved then SetRun(s, r, HaveApproval(s.approvals[a])) else s
    else s
  }

  function DoLoadCall(s: State, r: Id): State {
    if r in s.runs && s.runs[r].pc.HaveApproval? && s.runs[r].job in s.jobs && JobOf(s, r).call in s.calls then
      SetRun(s, r, Loaded(s.runs[r].pc.approval, s.calls[JobOf(s, r).call]))
    else s
  }

  /** A token the store may return when asked for this approval's token. */
  predicate TokenFor(s: State, approvalId: Id, t: Id) {
    t in s.tokens && s.tokens[t].approval == approvalId
  }

  /**
    Every check `validate_approval_commit_token_for_tool_call` makes on a token, the
    caller's snapshot of approval and call, and the grant as it is now.  `denied` is
    the connector policy's verdict, an arbitrary input here.
   */
  predicate TokenAccepts(bind: Binder, s: State, token: Token, approval: Approval, callId: Id, call: ToolCall, denied: bool) {
    && token.status == Issued
    && s.now < token.expiresAt
    && token.call == callId && token.session == approval.session && token.tool == call.tool
    && call.grant == Some(token.grant)
    && token.grant in s.grants
    && s.grants[token.grant].active
    && !PastExpiry(s.grants[token.grant].expiresAt, s.now)
    && RequiresToken(s.grants[token.grant], call.tool)
    && !denied
    && bind(call.tool, call.args) == Some(Binding(token.hash, token.target))
  }

  /** The precommit check: a bound call needs a token that would be accepted now. */
  function DoPrecheck(bind: Binder, s: State, r: Id, t: Id, denied: bool): State {
    if r !in s.runs || !s.runs[r].pc.Loaded? || s.runs[r].job !in s.jobs then s
    else
      var job := JobOf(s, r);
      var pc := s.runs[r].pc;
      if pc.call.hash.None? then SetRun(s, r, Prechecked(pc.approval, pc.call))
      else if TokenFor(s, job.approval, t) && TokenAccepts(bind, s, s.tokens[t], pc.approval, job.call, pc.call, denied) then
        SetRun(s, r, Prechecked(pc.approval, pc.call))
      else s
  }

  function CommitPoint(s: State, r: Id, pc: RunPc): State
    requires r in s.runs && s.runs[r].job in s.jobs
  {
    SetRun(SetJob(s.(commits := s.commits[s.runs[r].job := r]), r, JobOf(s, r).(status := Executing)), r, pc)
  }

  /** A bound call whose token was already consumed is taken to the commit point only to be marked unknown. */
  function DoFindSpent(s: State, r: Id, t: Id): State {
    if r in s.runs && s.runs[r].pc.Loaded? && s.runs[r].pc.call.hash.Some? && Owns(s, r)
       && JobOf(s, r).status == Running && TokenFor(s, JobOf(s, r).approval, t) && s.tokens[t].status == Consumed then
      CommitPoint(s, r, Doomed)
    else s
  }

  /** The queue's compare-and-set from running to executing: the durable commit point. */
  function DoBeginExecuting(s: State, r: Id): State {
    if r in s.runs && s.runs[r].pc.Prechecked? && Owns(s, r) && JobOf(s, r).status == Running then
      CommitPoint(s, r, Committed(s.runs[r].pc.approval, s.runs[r].pc.call))
    else s
  }

  function DoValidateToken(bind: Binder, s: State, r: Id, t: Id, denied: bool): State {
    if r in s.runs && s.runs[r].pc.Committed? && s.runs[r].job in s.jobs && ConsumesToken(s.runs[r].pc.call.tool)
       && TokenFor(s, JobOf(s, r).approval, t)
       && TokenAccepts(bind, s, s.tokens[t], s.runs[r].pc.approval, JobOf(s, r).call, s.runs[r].pc.call, denied) then
      SetRun(s, r, Validated(s.runs[r].pc.approval, s.runs[r].pc.call, t, s.now))
    else s
  }

  /** The store's consume: it sets the status whatever the status was. */
  function ConsumedToken(token: Token, now: Time): Token {
    token.(status := Consumed, consumedAt := Some(now))
  }

  function DoConsumeToken(s: State, r: Id): State {
    if r in s.runs && s.runs[r].pc.Validated? && s.runs[r].pc.token in s.tokens then
      var pc := s.runs[r].pc;
      SetRun(s.(tokens := s.tokens[pc.token := ConsumedToken(s.tokens[pc.token], s.now)],
                consumptions := s.consumptions + [Consumption(pc.token, r, pc.validatedAt, s.now, pc.call.args)]),
             r, Spent(pc.call, pc.token))
    else s
  }

  /** The connector or gateway call itself; its outcome does not matter here. */
  function DoPerformWrite(s: State, r: Id): State {
    if r in s.runs && s.runs[r].pc.Spent? then
      var pc := s.runs[r].pc;
      SetRun(s.(effects := s.effects + [Effect(pc.token, r, pc.call.tool, pc.call.args)]), r, Performed)
    else s
  }

  /** The approved execution of a tool that uses no token. */
  function DoPerformOther(s: State, r: Id): State {
    if r in s.runs && s.runs[r].pc.Committed? && !ConsumesToken(s.runs[r].pc.call.tool) then SetRun(s, r, Performed)
    else s
  }

  /** The key under which an attempt's outcome event is filed. */
  function Attempt(s: State, r: Id): (Id, nat)
    requires r in s.runs && s.runs[r].job in s.jobs
  {
    (s.runs[r].job, JobOf(s, r).attempts)
  }

  /** Success leaves a durable result event, written under the executing claim. */
  function DoRecordToolResult(s: State, r: Id): State {
    if r in s.runs && s.runs[r].pc.Performed? && Owns(s, r) && JobOf(s, r).status == Executing then
      SetRun(s.(toolResults := s.toolResults + {Attempt(s, r)}), r, Reported)
    else s
  }

  predicate PastCommitPoint(pc: RunPc) {
    pc.Committed? || pc.Validated? || pc.Spent? || pc.Performed? || pc.Doomed?
  }

  /**
    A known failure leaves a durable error event, written under the executing claim.
    The two executors that consume tokens never raise one.
   */
  function DoRecordToolError(s: State, r: Id): State {
    if r in s.runs && s.runs[r].pc.Committed? && !ConsumesToken(s.runs[r].pc.call.tool)
       && Owns(s, r) && JobOf(s, r).status == Executing then
      SetRun(s.(toolErrors := s.toolErrors + {Attempt(s, r)}), r, ErrorRecorded)
    else s
  }

  /** Moves the owned job to finalizing, and its run to the closing section. */
  function BeginClosing(s: State, r: Id, stage: Stage, failed: bool, retryable: bool): State
    requires r in s.runs && s.runs[r].job in s.jobs
  {
    SetRun(SetJob(s, r, JobOf(s, r).(status := Finalizing, stage := stage, failed := failed)), r, Closing(retryable))
  }

  predicate BeforeCommitPoint(pc: RunPc) {
    pc.Claimed? || pc.HaveApproval? || pc.Loaded? || pc.Prechecked?
  }

  function DoFailPrecommit(s: State, r: Id): State {
    if r in s.runs && BeforeCommitPoint(s.runs[r].pc) && Owns(s, r) && JobOf(s, r).status == Running then
      BeginClosing(s, r, PrecommitFailure, true, true)
    else s
  }

  /** Only the ontology action executor marks an error after the commit point as safe to retry. */
  function DoFailRetrySafe(s: State, r: Id): State {
    if r in s.runs && s.runs[r].pc.Committed? && s.runs[r].pc.call.tool == "ontology.action.execute"
       && Owns(s, r) && JobOf(s, r).status == Executing then
      BeginClosing(s, r, RetrySafeFailure, true, true)
    else s
  }

  function DoFailKnown(s: State, r: Id): State {
    if r in s.runs && s.runs[r].pc.ErrorRecorded? && Owns(s, r) && JobOf(s, r).status == Executing then
      BeginClosing(s, r, KnownFailure, true, false)
    else s
  }

  function DoFailUnknown(s: State, r: Id): State {
    if r in s.runs && PastCommitPoint(s.runs[r].pc) && Owns(s, r) && JobOf(s, r).status == Executing then
      SetRun(SetJob(s, r, JobOf(s, r).(status := OutcomeUnknown, lease := None)), r, Over)
    else s
  }

  function DoCompleteRun(s: State, r: Id): State {
    if r in s.runs && s.runs[r].pc.Reported? && Owns(s, r) && JobOf(s, r).status == Executing then
      BeginClosing(s, r, ToolExecution, false, false)
    else s
  }

  // ----- closing a job, by its own worker or by one that takes it over -----

  function TakeOver(s: State, j: Id, r: Id, worker: string, job: Job, retryable: bool): State {
    s.(jobs := s.jobs[j := job.(worker := Some(worker), generation := job.generation + 1, lease := Some(s.now + LEASE))],
       runs := s.runs[r := Run(j, worker, job.generation + 1, Closing(retryable))])
  }

  function DoRecoverExpired(s: State, j: Id, r: Id, worker: string): State {
    if j in s.jobs && r !in s.runs && s.jobs[j].status == Executing && !LeaseLive(s.jobs[j], s.now) then
      TakeOver(s, j, r, worker, s.jobs[j].(status := Finalizing, stage := Reconciliation, failed := false), false)
    else s
  }

  /** Whether finishing this finalizing job may put it back in the queue. */
  predicate RetryableFailure(job: Job) {
    job.failed && job.stage != KnownFailure
  }

  function DoResumeClosing(s: State, j: Id, r: Id, worker: string): State {
    if j in s.jobs && r !in s.runs && s.jobs[j].status == Finalizing && !LeaseLive(s.jobs[j], s.now) then
      TakeOver(s, j, r, worker, s.jobs[j], RetryableFailure(s.jobs[j]))
    else s
  }

  predicate ClosingOwned(s: State, r: Id) {
    r in s.runs && s.runs[r].pc.Closing? && Owns(s, r) && JobOf(s, r).status == Finalizing
  }

  function DoReconcileError(s: State, r: Id): State {
    if ClosingOwned(s, r) && JobOf(s, r).stage == Reconciliation && Attempt(s, r) in s.toolErrors then
      SetRun(SetJob(s, r, JobOf(s, r).(failed := true, stage := KnownFailure)), r, Closing(false))
    else s
  }

  function DoReconcileUnknown(s: State, r: Id): State {
    if ClosingOwned(s, r) && JobOf(s, r).stage == Reconciliation && Attempt(s, r) !in s.toolErrors + s.toolResults then
      SetRun(SetJob(s, r, JobOf(s, r).(status := OutcomeUnknown, lease := None, failed := true)), r, Over)
    else s
  }

  /** A job under reconciliation is finished only on the strength of a recorded result. */
  predicate CanFinish(s: State, r: Id) {
    ClosingOwned(s, r) && (JobOf(s, r).stage == Reconciliation ==> Attempt(s, r) in s.toolResults)
  }

  /** Without a transactional queue, the stage is overwritten just before a terminal finish. */
  function DoPrepareTail(s: State, r: Id): State {
    if CanFinish(s, r) then SetJob(s, r, JobOf(s, r).(stage := TailPending)) else s
  }

  function DoFinishClosing(s: State, r: Id): State {
    if CanFinish(s, r) then
      var job := JobOf(s, r);
      var closed :=
        if !job.failed then job.(status := Completed, lease := None)
        else if s.runs[r].pc.retryable && job.attempts < job.maxAttempts then
          job.(status := Queued, worker := None, lease := None)
        else job.(status := Failed, lease := None);
      SetRun(SetJob(s, r, closed), r, Over)
    else s
  }

  // ----- runs of the whole system -----

  function Do(bind: Binder, s: State, step: Step): State {
    match step
    case Tick(elapsed) => s.(now := s.now + elapsed)
    case ChangeGrants(grants) => s.(grants := grants)
    case OpenCall(call, record) => DoOpenCall(s, call, record)
    case OpenApproval(approval, request) => DoOpenApproval(s, approval, request)
    case ModifyArgs(approval, args) => DoModifyArgs(bind, s, approval, args)
    case OverwriteArgs(call, args) => DoOverwriteArgs(s, call, args)
    case Decline(approval, decision) => DoDecline(s, approval, decision)
    case CheckApproval(d, approval) => DoCheckApproval(s, d, approval)
    case DecideApproved(d) => DoDecideApproved(s, d)
    case ReadCall(d) => DoReadCall(s, d)
    case ReadGrant(d) => DoReadGrant(s, d)
    case LookupToken(d) => DoLookupToken(s, d)
    case CreateToken(d, t) => DoCreateToken(bind, s, d, t)
    case Enqueue(d, j, maxAttempts) => DoEnqueue(s, d, j, maxAttempts)
    case StartJob(j, r, worker) => DoStartJob(s, j, r, worker)
    case RenewLease(r, lease) => DoRenewLease(s, r, lease)
    case CancelJob(j) => DoCancelJob(s, j)
    case AdvanceCancel(j, acknowledge) => DoAdvanceCancel(s, j, acknowledge)
    case LoadApproval(r) => DoLoadApproval(s, r)
    case LoadCall(r) => DoLoadCall(s, r)
    case Precheck(r, t, denied) => DoPrecheck(bind, s, r, t, denied)
    case FindSpent(r, t) => DoFindSpent(s, r, t)
    case BeginExecuting(r) => DoBeginExecuting(s, r)
    case ValidateToken(r, t, denied) => DoValidateToken(bind, s, r, t, denied)
    case ConsumeToken(r) => DoConsumeToken(s, r)
    case PerformWrite(r) => DoPerformWrite(s, r)
    case PerformOther(r) => DoPerformOther(s, r)
    case RecordToolResult(r) => DoRecordToolResult(s, r)
    case RecordToolError(r) => DoRecordToolError(s, r)
    case FailPrecommit(r) => DoFailPrecommit(s, r)
    case FailRetrySafe(r) => DoFailRetrySafe(s, r)
    case FailKnown(r) => DoFailKnown(s, r)
    case FailUnknown(r) => DoFailUnknown(s, r)
    case CompleteRun(r) => DoCompleteRun(s, r)
    case RecoverExpired(j, r, worker) => DoRecoverExpired(s, j, r, worker)
    case ResumeClosing(j, r, worker) => DoResumeClosing(s, j, r, worker)
    case ReconcileError(r) => DoReconcileError(s, r)
    case ReconcileUnknown(r) => DoReconcileUnknown(s, r)
    case PrepareTail(r) => DoPrepareTail(s, r)
    case FinishClosing(r) => DoFinishClosing(s, r)
  }

  function DoAll(bind: Binder, s: State, steps: seq<Step>): State {
    if steps == [] then s else Do(bind, DoAll(bind, s, steps[..|steps| - 1]), steps[|steps| - 1])
  }
}
