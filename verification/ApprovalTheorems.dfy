/** The whole-run guarantees of the approval protocol, and where its promises stop. */
module ApprovalTheorems {
  import opened Wrappers
  import opened ApprovalProtocol
  import opened ApprovalSafety

  function After(bind: Binder, steps: seq<Step>): State {
    DoAll(bind, Init(), steps)
  }

  /** In every interleaving a token is consumed at most once. */
  lemma TokenConsumedAtMostOnce(bind: Binder, steps: seq<Step>, i: nat, j: nat)
    requires i < j < |After(bind, steps).consumptions|
    ensures After(bind, steps).consumptions[i].token != After(bind, steps).consumptions[j].token
  {
    InvAlways(bind, steps);
    OpenInv(bind, After(bind, steps));
  }

  /** An approval never has two tokens or two jobs, however many deciders race for it. */
  lemma OneTokenAndOneJobPerApproval(bind: Binder, steps: seq<Step>, t: Id, u: Id, j: Id, k: Id)
    ensures var s := After(bind, steps);
            && (t in s.tokens && u in s.tokens && s.tokens[t].approval == s.tokens[u].approval ==> t == u)
            && (j in s.jobs && k in s.jobs && s.jobs[j].approval == s.jobs[k].approval ==> j == k)
  {
    InvAlways(bind, steps);
    OpenInv(bind, After(bind, steps));
  }

  /**
    What stands behind every consumption: an approval that was won while pending by a
    handler that had found it unexpired, a token still unexpired when it was validated,
    and arguments whose digest and target are those recorded on the call at issue.
   */
  lemma ConsumptionIsAuthorised(bind: Binder, steps: seq<Step>, i: nat)
    requires i < |After(bind, steps).consumptions|
    ensures var s := After(bind, steps);
            var c := s.consumptions[i];
            && c.token in s.tokens && s.tokens[c.token].approval in s.approvals && c.token in s.issues
            && var token := s.tokens[c.token];
               var approval := s.approvals[token.approval];
               var issue := s.issues[c.token];
            && approval.status == Approved
            && token.approval in s.winners && issue.decider == s.winners[token.approval]
            && !PastExpiry(approval.expiresAt, issue.checkedAt)
            && c.validatedAt <= c.at
            && c.validatedAt < token.expiresAt
            && issue.call.hash == Some(token.hash) && issue.call.target == token.target
            && bind(token.tool, c.args) == Some(Binding(token.hash, token.target))
  {
    InvAlways(bind, steps);
    var s := After(bind, steps);
    OpenInv(bind, s);
    var c := s.consumptions[i];
    assert ConsumptionOk(bind, s, c);
    assert TokenOk(bind, s, c.token);
    assert DeciderOk(s, s.winners[s.tokens[c.token].approval]);
  }

  /** External writes are made at most once per approval, and only with the approved arguments' digest and target. */
  lemma WriteOncePerApproval(bind: Binder, steps: seq<Step>, i: nat, j: nat)
    requires i < |After(bind, steps).effects| && j < |After(bind, steps).effects|
    ensures var s := After(bind, steps);
            var e, f := s.effects[i], s.effects[j];
            && e.token in s.tokens && f.token in s.tokens
            && (s.tokens[e.token].approval == s.tokens[f.token].approval ==> i == j)
            && bind(e.tool, e.args) == Some(Binding(s.tokens[e.token].hash, s.tokens[e.token].target))
            && HasConsumption(s, e.token, e.run, e.args)
  {
    InvAlways(bind, steps);
    var s := After(bind, steps);
    OpenInv(bind, s);
    assert EffectOk(bind, s, s.effects[i]) && EffectOk(bind, s, s.effects[j]);
    var e := s.effects[i];
    var k :| 0 <= k < |s.consumptions| && s.consumptions[k].token == e.token
             && s.consumptions[k].run == e.run && s.consumptions[k].args == e.args;
    assert ConsumptionOk(bind, s, s.consumptions[k]);
  }

  /** A job that may still be claimed has never let a run of a consuming tool past the commit point. */
  lemma ClaimableJobIsUncommitted(bind: Binder, steps: seq<Step>, j: Id)
    requires j in After(bind, steps).jobs
    requires After(bind, steps).jobs[j].status == Queued || After(bind, steps).jobs[j].status == Running
    requires ConsumesToken(After(bind, steps).jobs[j].tool)
    ensures j !in After(bind, steps).commits
  {
    InvAlways(bind, steps);
    OpenInv(bind, After(bind, steps));
  }

  /** A tool that consumes no token never appears among the consumptions. */
  lemma OnlyConsumingToolsConsume(bind: Binder, s: State, r: Id)
    requires Inv(bind, s)
    requires |DoConsumeToken(s, r).consumptions| > |s.consumptions|
    ensures r in s.runs && s.runs[r].job in s.jobs && ConsumesToken(s.jobs[s.runs[r].job].tool)
    ensures s.runs[r].job in s.commits && s.commits[s.runs[r].job] == r
  {
    RunFactsHold(bind, s, r);
  }

  // ----- where the promises stop -----

  /** The store's consume succeeds again on a consumed token and overwrites when it was consumed. */
  lemma StoreConsumeIsNotCompareAndSet(token: Token, now: Time, later: Time)
    requires now < later
    ensures ConsumedToken(ConsumedToken(token, now), later) == ConsumedToken(token, later)
    ensures ConsumedToken(ConsumedToken(token, now), later) != ConsumedToken(token, now)
  {
    assert ConsumedToken(token, later).consumedAt == Some(later);
  }

  /** A state some sequence of steps leads to. */
  ghost predicate Reachable(bind: Binder, s: State) {
    exists steps: seq<Step> :: After(bind, steps) == s
  }

  lemma StartIsReachable(bind: Binder)
    ensures Reachable(bind, Init())
  {
    assert After(bind, []) == Init();
  }

  lemma TakeStep(bind: Binder, s: State, step: Step) returns (next: State)
    requires Reachable(bind, s)
    ensures Reachable(bind, next) && next == Do(bind, s, step)
  {
    var steps: seq<Step> :| After(bind, steps) == s;
    next := Do(bind, s, step);
    assert (steps + [step])[..|steps|] == steps;
    assert After(bind, steps + [step]) == next;
  }

  lemma DecidingReaches(bind: Binder, s: State, d: Id)
    requires Reachable(bind, s)
    ensures Reachable(bind, DoDecideApproved(s, d))
  {
    var next := TakeStep(bind, s, DecideApproved(d));
  }

  lemma ReadingCallReaches(bind: Binder, s: State, d: Id)
    requires Reachable(bind, s)
    ensures Reachable(bind, DoReadCall(s, d))
  {
    var next := TakeStep(bind, s, ReadCall(d));
  }

  lemma ReadingGrantReaches(bind: Binder, s: State, d: Id)
    requires Reachable(bind, s)
    ensures Reachable(bind, DoReadGrant(s, d))
  {
    var next := TakeStep(bind, s, ReadGrant(d));
  }

  lemma LookingUpReaches(bind: Binder, s: State, d: Id)
    requires Reachable(bind, s)
    ensures Reachable(bind, DoLookupToken(s, d))
  {
    var next := TakeStep(bind, s, LookupToken(d));
  }

  lemma CreatingReaches(bind: Binder, s: State, d: Id, t: Id)
    requires Reachable(bind, s)
    ensures Reachable(bind, DoCreateToken(bind, s, d, t))
  {
    var next := TakeStep(bind, s, CreateToken(d, t));
  }

  lemma EnqueueingReaches(bind: Binder, s: State, d: Id, j: Id, m: nat)
    requires Reachable(bind, s)
    ensures Reachable(bind, DoEnqueue(s, d, j, m))
  {
    var next := TakeStep(bind, s, Enqueue(d, j, m));
  }

  lemma BeginningReaches(bind: Binder, s: State, r: Id)
    requires Reachable(bind, s)
    ensures Reachable(bind, DoBeginExecuting(s, r))
  {
    var next := TakeStep(bind, s, BeginExecuting(r));
  }

  lemma ValidatingReaches(bind: Binder, s: State, r: Id, t: Id, denied: bool)
    requires Reachable(bind, s)
    ensures Reachable(bind, DoValidateToken(bind, s, r, t, denied))
  {
    var next := TakeStep(bind, s, ValidateToken(r, t, denied));
  }

  lemma WaitingReaches(bind: Binder, s: State, elapsed: nat)
    requires Reachable(bind, s)
    ensures Reachable(bind, s.(now := s.now + elapsed))
  {
    var next := TakeStep(bind, s, Tick(elapsed));
  }

  lemma ConsumingReaches(bind: Binder, s: State, r: Id)
    requires Reachable(bind, s)
    ensures Reachable(bind, DoConsumeToken(s, r))
  {
    var next := TakeStep(bind, s, ConsumeToken(r));
  }

  // A run in which the clock passes the expiry between validation and consumption.

  const LATE_GRANT := Grant(true, None, "commit_write", {})
  const LATE_CALL := ToolCall(0, "mcp.call", "{}", Some(1), Some("h"), "t", WaitingApproval)
  const LATE_REQUEST := Approval(0, Some(2), Pending, Some(10))
  const LATE_APPROVAL := Approval(0, Some(2), Approved, Some(10))
  const LATE_TOKEN := Token(3, 2, 1, 0, "mcp.call", "h", "t", Issued, 10, None)

  predicate Has<T(==)>(m: map<Id, T>, id: Id, value: T) {
    id in m && m[id] == value
  }

  ghost predicate LateStart(s: State, approval: Approval) {
    && s.now == 0 && Has(s.grants, 1, LATE_GRANT) && Has(s.calls, 2, LATE_CALL)
    && Has(s.approvals, 3, approval) && s.runs == map[] && s.consumptions == []
  }

  lemma LateRequested(bind: Binder) returns (s: State)
    ensures Reachable(bind, s)
    ensures LateStart(s, LATE_REQUEST)
    ensures s.deciders == map[] && s.tokens == map[] && s.jobs == map[]
  {
    StartIsReachable(bind);
    var granted := TakeStep(bind, Init(), ChangeGrants(map[1 := LATE_GRANT]));
    var called := TakeStep(bind, granted, OpenCall(2, LATE_CALL));
    s := TakeStep(bind, called, OpenApproval(3, LATE_REQUEST));
  }

  lemma LateChecked(bind: Binder) returns (s: State)
    ensures Reachable(bind, s)
    ensures LateStart(s, LATE_REQUEST)
    ensures Has(s.deciders, 4, Decider(3, 0, Checked))
    ensures s.tokens == map[] && s.jobs == map[]
  {
    var before := LateRequested(bind);
    s := TakeStep(bind, before, CheckApproval(4, 3));
  }

  lemma LateWon(bind: Binder) returns (s: State)
    ensures Reachable(bind, s)
    ensures LateStart(s, LATE_APPROVAL)
    ensures Has(s.deciders, 4, Decider(3, 0, HaveCall(LATE_CALL)))
    ensures s.tokens == map[] && s.jobs == map[]
  {
    var before := LateChecked(bind);
    var decided := DoDecideApproved(before, 4);
    DecidingReaches(bind, before, 4);
    assert Has(decided.deciders, 4, Decider(3, 0, Decided));
    ReadingCallReaches(bind, decided, 4);
    s := DoReadCall(decided, 4);
  }

  lemma LateReady(bind: Binder) returns (s: State)
    ensures Reachable(bind, s)
    ensures LateStart(s, LATE_APPROVAL)
    ensures Has(s.deciders, 4, Decider(3, 0, NoToken(LATE_CALL)))
    ensures s.tokens == map[] && s.jobs == map[]
  {
    var before := LateWon(bind);
    var granted := DoReadGrant(before, 4);
    ReadingGrantReaches(bind, before, 4);
    assert Has(granted.deciders, 4, Decider(3, 0, HaveGrant(LATE_CALL, LATE_GRANT)));
    LookingUpReaches(bind, granted, 4);
    s := DoLookupToken(granted, 4);
  }

  lemma LateIssued(bind: Binder) returns (s: State)
    requires bind("mcp.call", "{}") == Some(Binding("h", "t"))
    ensures Reachable(bind, s)
    ensures LateStart(s, LATE_APPROVAL)
    ensures Has(s.tokens, 5, LATE_TOKEN)
    ensures Has(s.deciders, 4, Decider(3, 0, ReadyToEnqueue)) && s.jobs == map[]
  {
    var before := LateReady(bind);
    CreatingReaches(bind, before, 4, 5);
    s := DoCreateToken(bind, before, 4, 5);
  }

  lemma LateEnqueued(bind: Binder) returns (s: State)
    requires bind("mcp.call", "{}") == Some(Binding("h", "t"))
    ensures Reachable(bind, s)
    ensures LateStart(s, LATE_APPROVAL)
    ensures Has(s.tokens, 5, LATE_TOKEN)
    ensures Has(s.jobs, 6, NewJob(3, 2, "mcp.call", 1))
  {
    var before := LateIssued(bind);
    EnqueueingReaches(bind, before, 4, 6, 1);
    s := DoEnqueue(before, 4, 6, 1);
  }

  const LATE_JOB := Job(3, 2, "mcp.call", Running, Some("w"), 1, Some(LEASE), NoStage, false, 1, 1)

  ghost predicate LateAt(s: State, pc: RunPc) {
    && s.now == 0 && s.consumptions == [] && Has(s.grants, 1, LATE_GRANT) && Has(s.tokens, 5, LATE_TOKEN)
    && Has(s.approvals, 3, LATE_APPROVAL) && Has(s.calls, 2, LATE_CALL)
    && Has(s.runs, 7, Run(6, "w", 1, pc))
    && Has(s.jobs, 6, if BeforeCommitPoint(pc) then LATE_JOB else LATE_JOB.(status := Executing))
  }

  lemma LateClaimed(bind: Binder) returns (s: State)
    requires bind("mcp.call", "{}") == Some(Binding("h", "t"))
    ensures Reachable(bind, s)
    ensures LateAt(s, Claimed)
  {
    var before := LateEnqueued(bind);
    s := TakeStep(bind, before, StartJob(6, 7, "w"));
  }

  lemma LateHasApproval(bind: Binder) returns (s: State)
    requires bind("mcp.call", "{}") == Some(Binding("h", "t"))
    ensures Reachable(bind, s)
    ensures LateAt(s, HaveApproval(LATE_APPROVAL))
  {
    var before := LateClaimed(bind);
    s := TakeStep(bind, before, LoadApproval(7));
  }

  lemma LateLoaded(bind: Binder) returns (s: State)
    requires bind("mcp.call", "{}") == Some(Binding("h", "t"))
    ensures Reachable(bind, s)
    ensures LateAt(s, Loaded(LATE_APPROVAL, LATE_CALL))
  {
    var before := LateHasApproval(bind);
    s := TakeStep(bind, before, LoadCall(7));
  }

  lemma LatePrechecked(bind: Binder) returns (s: State)
    requires bind("mcp.call", "{}") == Some(Binding("h", "t"))
    ensures Reachable(bind, s)
    ensures LateAt(s, Prechecked(LATE_APPROVAL, LATE_CALL))
  {
    var before := LateLoaded(bind);
    s := TakeStep(bind, before, Precheck(7, 5, false));
  }

  lemma LateBegins(s: State)
    requires LateAt(s, Prechecked(LATE_APPROVAL, LATE_CALL))
    ensures LateAt(DoBeginExecuting(s, 7), Committed(LATE_APPROVAL, LATE_CALL))
  {
    assert Owns(s, 7) && JobOf(s, 7) == LATE_JOB;
  }

  lemma LateCommitted(bind: Binder) returns (s: State)
    requires bind("mcp.call", "{}") == Some(Binding("h", "t"))
    ensures Reachable(bind, s)
    ensures LateAt(s, Committed(LATE_APPROVAL, LATE_CALL))
  {
    var before := LatePrechecked(bind);
    BeginningReaches(bind, before, 7);
    LateBegins(before);
    s := DoBeginExecuting(before, 7);
  }

  lemma LateValidated(bind: Binder) returns (s: State)
    requires bind("mcp.call", "{}") == Some(Binding("h", "t"))
    ensures Reachable(bind, s)
    ensures LateAt(s, Validated(LATE_APPROVAL, LATE_CALL, 5, 0))
  {
    var before := LateCommitted(bind);
    ValidatingReaches(bind, before, 7, 5, false);
    s := DoValidateToken(bind, before, 7, 5, false);
  }

  /** Some run consumes a token at the very instant the token expires. */
  lemma LateConsumptionIsPossible()
    ensures exists bind: Binder, steps: seq<Step> ::
              var s := After(bind, steps);
              |s.consumptions| == 1 && s.consumptions[0].token in s.tokens
              && s.consumptions[0].at >= s.tokens[s.consumptions[0].token].expiresAt
  {
    var bind: Binder := (tool, args) => Some(Binding("h", "t"));
    var s := LateSpent(bind);
    var steps: seq<Step> :| After(bind, steps) == s;
    assert After(bind, steps).consumptions[0] == Consumption(5, 7, 0, 10, "{}");
  }

  lemma LateSpent(bind: Binder) returns (s: State)
    requires bind("mcp.call", "{}") == Some(Binding("h", "t"))
    ensures Reachable(bind, s)
    ensures s.consumptions == [Consumption(5, 7, 0, 10, "{}")] && 5 in s.tokens && s.tokens[5].expiresAt == 10
  {
    var before := LateValidated(bind);
    var late := before.(now := before.now + 10);
    WaitingReaches(bind, before, 10);
    ConsumingReaches(bind, late, 7);
    s := DoConsumeToken(late, 7);
  }
}
