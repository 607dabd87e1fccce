/** The handlers of the approval protocol, run without interference on the stored state. */
module ApprovalStore {
  import opened Wrappers
  import opened ApprovalProtocol

  datatype PolicyDecision = Allowed | RequiresApproval | PolicyDenied | Unrecognised

  datatype InvocationOutcome = BlockedByGate | DeniedByPolicy | ApprovalRequired(approval: Id) | RanInline

  /** The stored fields of a protocol state; handlers in flight and history are left out. */
  predicate SameStored(s: State, t: State) {
    && s.now == t.now && s.approvals == t.approvals && s.calls == t.calls
    && s.grants == t.grants && s.tokens == t.tokens && s.jobs == t.jobs
  }

  /** What the approve handler does about a commit token. */
  datatype IssueVerdict = NotNeeded | Refused(reason: string) | Mint(token: Token)

  predicate HasToken(s: State, approvalId: Id) {
    exists t :: t in s.tokens && TokenFor(s, approvalId, t)
  }

  function VerdictFor(bind: Binder, s: State, approvalId: Id): IssueVerdict
    requires approvalId in s.approvals
  {
    var approval := s.approvals[approvalId];
    if approval.call.None? then NotNeeded
    else if approval.call.value !in s.calls then Refused("tool call not found")
    else
      var call := s.calls[approval.call.value];
      if call.grant.None? then NotNeeded
      else if call.grant.value !in s.grants then Refused("task grant not found")
      else if !RequiresToken(s.grants[call.grant.value], call.tool) || HasToken(s, approvalId) then NotNeeded
      else
        match MatchingBinding(bind, call)
        case None => Refused("approval commit binding does not match current tool call args")
        case Some(b) => Mint(IssuedToken(s, approvalId, approval, call, b))
  }

  function AfterRead(s: State, d: Id): State {
    DoLookupToken(DoReadGrant(DoReadCall(s, d), d), d)
  }

  /** The decider's stage once it has read the call, the grant and the token table. */
  function StageAfterRead(s: State, approvalId: Id): DeciderPc
    requires approvalId in s.approvals
  {
    var a := s.approvals[approvalId];
    if a.call.None? then ReadyToEnqueue
    else if a.call.value !in s.calls then Aborted
    else
      var call := s.calls[a.call.value];
      if call.grant.None? then ReadyToEnqueue
      else if call.grant.value !in s.grants then Aborted
      else if !RequiresToken(s.grants[call.grant.value], call.tool) || HasToken(s, approvalId) then ReadyToEnqueue
      else NoToken(call)
  }

  lemma SetDeciderTwice(s: State, d: Id, pc: DeciderPc, later: DeciderPc)
    requires d in s.deciders
    ensures SetDecider(SetDecider(s, d, pc), d, later) == SetDecider(s, d, later)
  {
    var decider := s.deciders[d];
    assert s.deciders[d := decider.(pc := pc)][d := decider.(pc := later)] == s.deciders[d := decider.(pc := later)];
  }

  lemma LookupFollowsTokens(s: State, d: Id, call: ToolCall, grant: Grant)
    requires d in s.deciders
    ensures DoLookupToken(SetDecider(s, d, HaveGrant(call, grant)), d)
         == SetDecider(s, d, if HasToken(s, s.deciders[d].approval) then ReadyToEnqueue else NoToken(call))
  {
    var s2 := SetDecider(s, d, HaveGrant(call, grant));
    var a := s.deciders[d].approval;
    assert forall t :: TokenFor(s2, a, t) <==> TokenFor(s, a, t);
    SetDeciderTwice(s, d, HaveGrant(call, grant), if HasToken(s, a) then ReadyToEnqueue else NoToken(call));
  }

  lemma GrantReadFollows(s: State, d: Id, call: ToolCall)
    requires d in s.deciders && call.grant.Some?
    ensures DoReadGrant(SetDecider(s, d, HaveCall(call)), d)
         == SetDecider(s, d, if call.grant.value !in s.grants then Aborted
                             else if RequiresToken(s.grants[call.grant.value], call.tool)
                             then HaveGrant(call, s.grants[call.grant.value]) else ReadyToEnqueue)
  {
    var s1 := SetDecider(s, d, HaveCall(call));
    assert s1.deciders[d].pc.call == call;
    if call.grant.value !in s.grants {
      SetDeciderTwice(s, d, HaveCall(call), Aborted);
    } else if RequiresToken(s.grants[call.grant.value], call.tool) {
      SetDeciderTwice(s, d, HaveCall(call), HaveGrant(call, s.grants[call.grant.value]));
    } else {
      SetDeciderTwice(s, d, HaveCall(call), ReadyToEnqueue);
    }
  }

  /** Without a call to look at, the later reads find nothing to do. */
  lemma ReadsStopEarly(s: State, d: Id, pc: DeciderPc)
    requires d in s.deciders && (pc.ReadyToEnqueue? || pc.Aborted?)
    ensures DoLookupToken(SetDecider(s, d, pc), d) == SetDecider(s, d, pc)
    ensures DoLookupToken(DoReadGrant(SetDecider(s, d, pc), d), d) == SetDecider(s, d, pc)
  {
    assert SetDecider(s, d, pc).deciders[d].pc == pc;
  }

  lemma ReadsReachStage(s: State, d: Id)
    requires DeciderAt(s, d, Decided) && s.deciders[d].approval in s.approvals
    ensures AfterRead(s, d) == SetDecider(s, d, StageAfterRead(s, s.deciders[d].approval))
  {
    var a := s.approvals[s.deciders[d].approval];
    if a.call.None? {
      ReadsStopEarly(s, d, ReadyToEnqueue);
    } else if a.call.value !in s.calls {
      ReadsStopEarly(s, d, Aborted);
    } else {
      var call := s.calls[a.call.value];
      if call.grant.None? {
        ReadsStopEarly(s, d, ReadyToEnqueue);
      } else {
        assert DoReadCall(s, d) == SetDecider(s, d, HaveCall(call));
        GrantReadFollows(s, d, call);
        if call.grant.value !in s.grants {
          ReadsStopEarly(s, d, Aborted);
        } else if RequiresToken(s.grants[call.grant.value], call.tool) {
          LookupFollowsTokens(s, d, call, s.grants[call.grant.value]);
        } else {
          ReadsStopEarly(s, d, ReadyToEnqueue);
        }
      }
    }
  }

  lemma CreateFollowsBinding(bind: Binder, s: State, d: Id, approvalId: Id, call: ToolCall, tokenId: Id)
    requires d in s.deciders && s.deciders[d].approval == approvalId && approvalId in s.approvals && tokenId !in s.tokens
    requires s.approvals[approvalId].call.Some? && call.grant.Some?
    ensures var s' := DoCreateToken(bind, SetDecider(s, d, NoToken(call)), d, tokenId);
            match MatchingBinding(bind, call)
            case None => s'.tokens == s.tokens && DeciderAt(s', d, Aborted)
            case Some(b) =>
              && s'.tokens == s.tokens[tokenId := IssuedToken(s, approvalId, s.approvals[approvalId], call, b)]
              && DeciderAt(s', d, ReadyToEnqueue)
  {
  }

  /**
    The handler's decision about a token is the decider's path through the protocol: the
    same token is created, or the decider goes on without one, or it stops.
   */
  lemma VerdictIsTheDecidersPath(bind: Binder, s: State, d: Id, tokenId: Id)
    requires DeciderAt(s, d, Decided) && s.deciders[d].approval in s.approvals && tokenId !in s.tokens
    ensures var v := VerdictFor(bind, s, s.deciders[d].approval);
            var s' := DoCreateToken(bind, AfterRead(s, d), d, tokenId);
            match v
            case NotNeeded => s'.tokens == s.tokens && DeciderAt(s', d, ReadyToEnqueue)
            case Refused(_) => s'.tokens == s.tokens && DeciderAt(s', d, Aborted)
            case Mint(token) => s'.tokens == s.tokens[tokenId := token] && DeciderAt(s', d, ReadyToEnqueue)
  {
    ReadsReachStage(s, d);
    var stage := StageAfterRead(s, s.deciders[d].approval);
    if stage.NoToken? {
      CreateFollowsBinding(bind, s, d, s.deciders[d].approval, stage.call, tokenId);
    } else {
      var s1 := SetDecider(s, d, stage);
      assert s1.deciders[d].pc == stage;
      assert DoCreateToken(bind, s1, d, tokenId) == s1;
    }
  }

  /** The binding an invocation carries: none without a grant that asks for one. */
  function InvocationBinding(bind: Binder, tool: string, args: string, grant: Option<Grant>): Result<Option<Binding>> {
    if grant.None? || !RequiresToken(grant.value, tool) then Ok(None)
    else
      match bind(tool, args)
      case None => Err("connector target binding failed")
      case Some(b) => Ok(Some(b))
  }

  function EffectiveDecision(binding: Option<Binding>, decision: PolicyDecision): PolicyDecision {
    if binding.Some? && decision != PolicyDenied then RequiresApproval else decision
  }

  function RequestedCall(session: Id, tool: string, args: string, grant: Option<Id>, binding: Option<Binding>,
                         decision: PolicyDecision, blocked: bool): ToolCall {
    ToolCall(session, tool, args, grant,
             if binding.Some? then Some(binding.value.hash) else None,
             if binding.Some? then binding.value.target else "{}",
             if blocked then CallDenied
             else match decision
                  case Allowed => CallRunning
                  case RequiresApproval => WaitingApproval
                  case PolicyDenied => CallDenied
                  case Unrecognised => CallDenied)
  }

  class ControlPlane {
    var now: Time
    var approvals: map<Id, Approval>
    var calls: map<Id, ToolCall>
    var grants: map<Id, Grant>
    var tokens: map<Id, Token>
    var jobs: map<Id, Job>

    constructor ()
      ensures SameStored(View(), Init())
    {
      now := 0;
      approvals, calls, grants, tokens, jobs := map[], map[], map[], map[], map[];
    }

    /** The stored state, with no handler in flight. */
    function View(): State
      reads this
    {
      State(now, approvals, calls, grants, tokens, jobs, map[], map[], map[], map[], map[], {}, {}, [], [])
    }

    /** The store's compare-and-set from pending. */
    method StoreDecide(approval: Id) returns (r: Result<Approval>)
      modifies this`approvals
      ensures r.Ok? <==> approval in old(approvals) && old(approvals)[approval].status == Pending
      ensures r.Ok? ==> r.value == old(approvals)[approval].(status := Approved)
                        && approvals == old(approvals)[approval := r.value]
      ensures r.Err? ==> approvals == old(approvals)
    {
      if approval !in approvals {
        return Err("approval not found");
      }
      if approvals[approval].status != Pending {
        return Err("only pending approvals can be decided");
      }
      var decided := approvals[approval].(status := Approved);
      approvals := approvals[approval := decided];
      return Ok(decided);
    }

    /** Declines a pending approval, or one so declined before, and denies the call that was waiting on it. */
    method StoreDecline(approval: Id, decision: ApprovalStatus) returns (r: Result<Approval>)
      requires decision == Rejected || decision == Expired
      modifies this`approvals, this`calls
      ensures SameStored(View(), DoDecline(old(View()), approval, decision))
      ensures r.Ok? ==> approval in approvals && r.value == approvals[approval]
      ensures r.Err? ==> approvals == old(approvals) && calls == old(calls)
    {
      if approval !in approvals {
        return Err("approval not found");
      }
      var a := approvals[approval];
      if a.status != Pending && a.status != decision {
        if decision == Expired {
          return Ok(a);
        }
        return Err("only pending approvals can be declined");
      }
      if a.call.Some? {
        if a.call.value !in calls {
          return Err("tool call not found");
        }
        var call := calls[a.call.value];
        if call.status == WaitingApproval {
          calls := calls[a.call.value := call.(status := CallDenied)];
        }
      }
      approvals := approvals[approval := a.(status := decision)];
      return Ok(approvals[approval]);
    }

    /** Issues the commit token of an approval that has just been won, when its grant asks for one. */
    method MaybeIssueToken(bind: Binder, approvalId: Id, tokenId: Id) returns (r: Result<Option<Id>>)
      requires approvalId in approvals && tokenId !in tokens
      modifies this`tokens
      ensures match VerdictFor(bind, old(View()), approvalId)
              case NotNeeded => r == Ok(None) && tokens == old(tokens)
              case Refused(reason) => r == Err(reason) && tokens == old(tokens)
              case Mint(token) => r == Ok(Some(tokenId)) && tokens == old(tokens)[tokenId := token]
    {
      var approval := approvals[approvalId];
      if approval.call.None? {
        return Ok(None);
      }
      if approval.call.value !in calls {
        return Err("tool call not found");
      }
      var call := calls[approval.call.value];
      if call.grant.None? {
        return Ok(None);
      }
      if call.grant.value !in grants {
        return Err("task grant not found");
      }
      if !RequiresToken(grants[call.grant.value], call.tool) {
        return Ok(None);
      }
      if HasToken(View(), approvalId) {
        return Ok(None);
      }
      var binding := MatchingBinding(bind, call);
      if binding.None? {
        return Err("approval commit binding does not match current tool call args");
      }
      tokens := tokens[tokenId := IssuedToken(View(), approvalId, approval, call, binding.value)];
      return Ok(Some(tokenId));
    }

    /**
      The decide handler.  A refusal to issue the token comes after the approval has been
      marked approved: the approval keeps that status, without token or job.
     */
    method DecideApproval(bind: Binder, approvalId: Id, approve: bool, tokenId: Id, jobId: Id, maxAttempts: nat)
      returns (r: Result<Approval>)
      requires tokenId !in tokens && jobId !in jobs
      modifies this`approvals, this`calls, this`tokens, this`jobs
      ensures approvalId !in old(approvals) || old(approvals)[approvalId].status != Pending ==>
                r.Err? && SameStored(View(), old(View()))
      ensures approvalId in old(approvals) && ApprovalExpiredAt(old(approvals)[approvalId], now) ==>
                r.Err? && SameStored(View(), DoDecline(old(View()), approvalId, Expired))
      ensures approvalId in old(approvals) && old(approvals)[approvalId].status == Pending
              && !ApprovalExpiredAt(old(approvals)[approvalId], now) && !approve ==>
                SameStored(View(), DoDecline(old(View()), approvalId, Rejected))
      ensures approvalId in old(approvals) && old(approvals)[approvalId].status == Pending
              && !ApprovalExpiredAt(old(approvals)[approvalId], now) && approve ==>
                && approvals == old(approvals)[approvalId := old(approvals)[approvalId].(status := Approved)]
                && calls == old(calls)
                && var v := VerdictFor(bind, old(View()), approvalId);
                   var a := old(approvals)[approvalId];
                && tokens == (if v.Mint? then old(tokens)[tokenId := v.token] else old(tokens))
                && (r.Err? <==> v.Refused?)
                && jobs == (if v.Refused? || a.call.None? then old(jobs)
                            else old(jobs)[jobId := NewJob(approvalId, a.call.value, old(calls)[a.call.value].tool, maxAttempts)])
    {
      if approvalId !in approvals {
        return Err("approval not found");
      }
      if approvals[approvalId].status != Pending {
        return Err("only pending approvals can be decided");
      }
      if ApprovalExpiredAt(approvals[approvalId], now) {
        var _ := StoreDecline(approvalId, Expired);
        return Err("approval expired");
      }
      if !approve {
        r := StoreDecline(approvalId, Rejected);
        return;
      }
      var updated := StoreDecide(approvalId);
      var issued := MaybeIssueToken(bind, approvalId, tokenId);
      if issued.Err? {
        return Err(issued.error);
      }
      if updated.value.call.Some? {
        var callId := updated.value.call.value;
        jobs := jobs[jobId := NewJob(approvalId, callId, calls[callId].tool, maxAttempts)];
      }
      return updated;
    }

    /** Validates the approval's token against the caller's snapshots, then consumes it. */
    method ConsumeValidToken(bind: Binder, approvalId: Id, approval: Approval, callId: Id, call: ToolCall, denied: bool)
      returns (r: Result<Id>)
      requires forall t, u :: t in tokens && u in tokens && tokens[t].approval == tokens[u].approval ==> t == u
      modifies this`tokens
      ensures r.Ok? <==> exists t :: t in old(tokens) && TokenFor(old(View()), approvalId, t)
                                    && TokenAccepts(bind, old(View()), old(tokens)[t], approval, callId, call, denied)
      ensures r.Ok? ==> r.value in old(tokens) && old(tokens)[r.value].approval == approvalId
                        && old(tokens)[r.value].status == Issued && now < old(tokens)[r.value].expiresAt
                        && tokens == old(tokens)[r.value := ConsumedToken(old(tokens)[r.value], now)]
      ensures r.Err? ==> tokens == old(tokens)
    {
      if !(exists t :: t in tokens && tokens[t].approval == approvalId) {
        return Err("approval commit token is required");
      }
      ghost var before := View();
      var id :| id in tokens && tokens[id].approval == approvalId;
      assert TokenFor(before, approvalId, id);
      assert forall t :: t in before.tokens && TokenFor(before, approvalId, t) ==> t == id;
      var token := tokens[id];
      if token.status != Issued {
        return Err("approval commit token is not issued");
      }
      if token.expiresAt <= now {
        return Err("approval commit token is expired");
      }
      if token.call != callId || token.session != approval.session || token.tool != call.tool {
        return Err("approval commit token does not match tool call");
      }
      if call.grant.None? {
        return Err("approval commit token requires task grant binding");
      }
      if token.grant != call.grant.value {
        return Err("approval commit token task grant does not match tool call");
      }
      if token.grant !in grants {
        return Err("task grant not found");
      }
      var grant := grants[token.grant];
      if !grant.active {
        return Err("task grant is not active");
      }
      if PastExpiry(grant.expiresAt, now) {
        return Err("task grant is expired");
      }
      if !RequiresToken(grant, call.tool) {
        return Err("approval commit token is only valid for commit_write effects");
      }
      if denied {
        return Err("connector invocation denied");
      }
      if bind(call.tool, call.args) != Some(Binding(token.hash, token.target)) {
        return Err("approval commit token digest does not match current tool call args");
      }
      tokens := tokens[id := ConsumedToken(token, now)];
      return Ok(id);
    }

    /**
      The tool invocation handler, up to the point where it denies, asks for approval or
      runs the tool.  The policy's decision and the gate's verdict are arbitrary inputs.
     */
    method ExecuteToolInvocation(bind: Binder, session: Id, tool: string, args: string, grantId: Option<Id>,
                                 decision: PolicyDecision, blocked: bool, callId: Id, approvalId: Id)
      returns (r: Result<InvocationOutcome>)
      requires grantId.Some? ==> grantId.value in grants
      requires callId !in calls && approvalId !in approvals
      modifies this`approvals, this`calls
      ensures var grant := if grantId.Some? then Some(grants[grantId.value]) else None;
              var binding := InvocationBinding(bind, tool, args, grant);
              if binding.Err? then r.Err? && SameStored(View(), old(View()))
              else
                var effective := EffectiveDecision(binding.value, decision);
                && calls == old(calls)[callId := RequestedCall(session, tool, args, grantId, binding.value, effective, blocked)]
                && (r == Ok(RanInline) ==> binding.value.None? && !blocked)
                && (r == Ok(RanInline) <==> !blocked && effective != RequiresApproval && effective != PolicyDenied)
                && (r == Ok(ApprovalRequired(approvalId)) <==> !blocked && effective == RequiresApproval)
                && approvals == (if !blocked && effective == RequiresApproval
                                 then old(approvals)[approvalId := Approval(session, Some(callId), Pending, Some(now + 86_400))]
                                 else old(approvals))
    {
      var grant := if grantId.Some? then Some(grants[grantId.value]) else None;
      var binding := InvocationBinding(bind, tool, args, grant);
      if binding.Err? {
        return Err(binding.error);
      }
      var effective := decision;
      if binding.value.Some? && decision != PolicyDenied {
        effective := RequiresApproval;
      }
      calls := calls[callId := RequestedCall(session, tool, args, grantId, binding.value, effective, blocked)];
      if blocked {
        return Ok(BlockedByGate);
      }
      if effective == PolicyDenied {
        return Ok(DeniedByPolicy);
      }
      if effective == RequiresApproval {
        approvals := approvals[approvalId := Approval(session, Some(callId), Pending, Some(now + 86_400))];
        return Ok(ApprovalRequired(approvalId));
      }
      return Ok(RanInline);
    }
  }

  /**
    A bound invocation never runs inline, whatever the policy says: at best it waits for
    an approval, and its call records exactly the digest and target of its arguments.
   */
  lemma BoundInvocationNeverRunsInline(bind: Binder, session: Id, tool: string, args: string, grantId: Id, grant: Grant,
                                       decision: PolicyDecision, blocked: bool)
    requires RequiresToken(grant, tool)
    ensures match InvocationBinding(bind, tool, args, Some(grant))
            case Err(_) => bind(tool, args).None?
            case Ok(binding) =>
              var effective := EffectiveDecision(binding, decision);
              var call := RequestedCall(session, tool, args, Some(grantId), binding, effective, blocked);
              && (effective == RequiresApproval || effective == PolicyDenied)
              && call.status != CallRunning
              && MatchingBinding(bind, call).Some?
              && (call.status == WaitingApproval <==> !blocked && decision != PolicyDenied)
  {
  }
}
