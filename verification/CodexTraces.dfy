/** Grouping the runs of a coding agent into traces, and re-deriving one trace on demand. */
module CodexTraces {
  import opened Wrappers
  import opened Sequences
  import opened Text

  datatype Run = Run(
    id: nat,
    turnId: Option<string>,
    threadId: Option<string>,
    commandId: Option<string>,
    operation: string,
    status: string,
    error: Option<string>,
    response: string,
    createdAt: int)

  /** How statuses and operations are read, and how a run's id is written. */
  datatype Reading = Reading(
    terminal: string -> bool,
    failed: string -> bool,
    isCommand: string -> bool,
    isPoll: string -> bool,
    isInterrupt: string -> bool,
    show: nat -> string)

  predicate TerminalStatus(status: string) {
    Lower(Trim(status)) in {"completed", "failed", "cancelled", "canceled", "interrupted"}
  }

  predicate FailedStatus(status: string) {
    Lower(Trim(status)) in {"failed", "poll_failed", "cancelled", "canceled", "interrupted"}
  }

  function Standard(show: nat -> string): Reading {
    Reading(TerminalStatus, FailedStatus, s => Contains(s, "command"), s => Contains(s, "poll"), s => Contains(s, "interrupt"), show)
  }

  /** A run belongs to its turn, or else to its command, or else to itself. */
  function TraceKey(reading: Reading, r: Run): string {
    if r.turnId.Some? then r.turnId.value
    else if r.commandId.Some? then r.commandId.value
    else "run:" + reading.show(r.id)
  }

  predicate IsCommand(reading: Reading, r: Run) {
    reading.isCommand(r.operation) || r.commandId.Some?
  }

  predicate IsPoll(reading: Reading, r: Run) {
    reading.isPoll(r.operation)
  }

  predicate IsError(reading: Reading, r: Run) {
    r.error.Some? || reading.failed(r.status)
  }

  predicate Earlier(a: Run, b: Run) {
    a.createdAt <= b.createdAt
  }

  lemma EarlierIsTotalPreorder()
    ensures TotalPreorder(Earlier)
  {
  }

  // ----- the dashboard -----

  datatype Evidence = PollSeen | InterruptSeen | WorkerLease | Retry | Fallback | ArtifactSync | Failure | OtherEvidence

  datatype Domain =
    | FallbackDomain | WorkerLeaseDomain | PollDomain | InterruptDomain | CommandDomain | ProviderDomain | NonTerminalPoll | NoDomain

  datatype Dashboard = Dashboard(
    commands: nat,
    polls: nat,
    interrupts: nat,
    failures: nat,
    workerLeases: nat,
    retries: nat,
    fallbacks: nat,
    artifactSyncs: nat,
    stuck: bool,
    domain: Domain)

  function CountRuns(keep: Run -> bool, runs: seq<Run>): nat {
    |Filter(keep, runs)|
  }

  function CountEvidence(kind: Evidence, evidence: seq<Evidence>): nat {
    |Filter((e: Evidence) => e == kind, evidence)|
  }

  function DomainOf(reading: Reading, runs: seq<Run>, d: Dashboard): Domain {
    if d.fallbacks > 0 && d.failures > 0 then FallbackDomain
    else if d.retries > 0 && d.failures > 0 then WorkerLeaseDomain
    else if d.failures > 0 && runs != [] && (IsPoll(reading, runs[|runs| - 1]) || runs[|runs| - 1].status == "poll_failed") then PollDomain
    else if d.failures > 0 && d.interrupts > 0 then InterruptDomain
    else if d.failures > 0 && d.commands > 0 then CommandDomain
    else if d.failures > 0 then ProviderDomain
    else if d.stuck then NonTerminalPoll
    else NoDomain
  }

  function DashboardOf(reading: Reading, runs: seq<Run>, evidence: seq<Evidence>, artifacts: nat, terminal: bool): Dashboard {
    var syncs := CountEvidence(ArtifactSync, evidence);
    var d := Dashboard(CountRuns((r: Run) => IsCommand(reading, r), runs),
                       CountRuns((r: Run) => IsPoll(reading, r), runs) + CountEvidence(PollSeen, evidence),
                       CountRuns((r: Run) => reading.isInterrupt(r.operation), runs) + CountEvidence(InterruptSeen, evidence),
                       CountRuns((r: Run) => IsError(reading, r), runs) + CountEvidence(Failure, evidence),
                       CountEvidence(WorkerLease, evidence), CountEvidence(Retry, evidence), CountEvidence(Fallback, evidence),
                       if syncs < artifacts then artifacts else syncs,
                       runs != [] && runs[|runs| - 1].turnId.Some? && !terminal, NoDomain);
    d.(domain := DomainOf(reading, runs, d))
  }

  // ----- traces -----

  datatype Trace = Trace(
    key: string,
    turnId: Option<string>,
    threadId: Option<string>,
    latestRun: nat,
    latestStatus: string,
    terminal: bool,
    runCount: nat,
    commandCount: nat,
    pollCount: nat,
    errorCount: nat,
    duration: int,
    commandIds: set<string>,
    operations: set<string>,
    latestError: Option<string>,
    dashboard: Dashboard,
    firstSeen: int,
    lastSeen: int)

  /** The error of the last run that has one. */
  function LatestError(runs: seq<Run>): Option<string> {
    if runs == [] then None
    else if runs[|runs| - 1].error.Some? then runs[|runs| - 1].error
    else LatestError(runs[..|runs| - 1])
  }

  /** It is the error of a run after which no run has one. */
  lemma {:induction false} LatestErrorIsLast(runs: seq<Run>)
    ensures LatestError(runs).None? <==> forall i :: 0 <= i < |runs| ==> runs[i].error.None?
    ensures LatestError(runs).Some? ==>
              exists i :: 0 <= i < |runs| && runs[i].error == LatestError(runs)
                          && forall k :: i < k < |runs| ==> runs[k].error.None?
  {
    if runs != [] {
      var front, last := runs[..|runs| - 1], |runs| - 1;
      if runs[last].error.None? {
        LatestErrorIsLast(front);
        assert forall i :: 0 <= i < last ==> runs[i] == front[i];
        if LatestError(front).Some? {
          var i :| 0 <= i < |front| && front[i].error == LatestError(front) && forall k :: i < k < |front| ==> front[k].error.None?;
          assert runs[i].error == LatestError(runs);
        }
      } else {
        assert runs[last].error == LatestError(runs);
      }
    }
  }

  function CommandIds(runs: seq<Run>): set<string> {
    set i | 0 <= i < |runs| && runs[i].commandId.Some? :: runs[i].commandId.value
  }

  function Operations(runs: seq<Run>): set<string> {
    set i | 0 <= i < |runs| :: runs[i].operation
  }

  /** The record of one group, whose runs are in order of time. */
  function TraceOf(reading: Reading, key: string, group: seq<Run>): Trace
    requires group != []
  {
    var first, latest := group[0], group[|group| - 1];
    var terminal := reading.terminal(latest.status);
    Trace(key,
          if latest.turnId.Some? then latest.turnId else first.turnId,
          if latest.threadId.Some? then latest.threadId else first.threadId,
          latest.id, latest.status, terminal, |group|,
          CountRuns((r: Run) => IsCommand(reading, r), group), CountRuns((r: Run) => IsPoll(reading, r), group),
          CountRuns((r: Run) => IsError(reading, r), group),
          latest.createdAt - first.createdAt, CommandIds(group), Operations(group), LatestError(group),
          DashboardOf(reading, group, [], 0, terminal), first.createdAt, latest.createdAt)
  }

  function InTrace(reading: Reading, key: string): Run -> bool {
    (r: Run) => TraceKey(reading, r) == key
  }

  function GroupOf(reading: Reading, key: string, runs: seq<Run>): seq<Run> {
    Filter(InTrace(reading, key), runs)
  }

  function KeyReader(reading: Reading): Run -> string {
    (r: Run) => TraceKey(reading, r)
  }

  /** The keys in ascending order. */
  function SortedKeys(reading: Reading, runs: seq<Run>): seq<string> {
    Sort(AtMost, KeysOf(KeyReader(reading), runs))
  }

  lemma GroupsAreNonEmpty(reading: Reading, key: string, runs: seq<Run>)
    ensures GroupOf(reading, key, runs) != [] <==> key in SortedKeys(reading, runs)
  {
    KeysAreDistinct(KeyReader(reading), runs);
    SortKeepsElements(AtMost, KeysOf(KeyReader(reading), runs));
    FilterElements(InTrace(reading, key), runs);
    var group := GroupOf(reading, key, runs);
    if group != [] {
      assert group[0] in group;
      assert group[0] in runs;
      var i :| 0 <= i < |runs| && runs[i] == group[0];
      assert KeyReader(reading)(runs[i]) == key;
    }
    if key in SortedKeys(reading, runs) {
      var i :| 0 <= i < |runs| && KeyReader(reading)(runs[i]) == key;
      assert runs[i] in runs;
      assert runs[i] in group;
    }
  }

  function TraceFor(reading: Reading, runs: seq<Run>, key: string): Trace
    requires key in SortedKeys(reading, runs)
  {
    GroupsAreNonEmpty(reading, key, runs);
    TraceOf(reading, key, Sort(Earlier, GroupOf(reading, key, runs)))
  }

  function TracesInKeyOrder(reading: Reading, runs: seq<Run>): (r: seq<Trace>)
    ensures |r| == |SortedKeys(reading, runs)|
    ensures forall i :: 0 <= i < |r| ==> r[i] == TraceFor(reading, runs, SortedKeys(reading, runs)[i])
  {
    var keys := SortedKeys(reading, runs);
    seq(|keys|, i requires 0 <= i < |keys| => TraceFor(reading, runs, keys[i]))
  }

  predicate Fresher(a: Trace, b: Trace) {
    a.lastSeen >= b.lastSeen
  }

  /** The traces, most recently seen first. */
  function Traces(reading: Reading, runs: seq<Run>): seq<Trace> {
    Sort(Fresher, TracesInKeyOrder(reading, runs))
  }

  /** The grouping loop. */
  method GroupRuns(reading: Reading, runs: seq<Run>) returns (grouped: map<string, seq<Run>>)
    ensures Grouped(reading, runs, grouped)
  {
    grouped := map[];
    for i := 0 to |runs|
      invariant Grouped(reading, runs[..i], grouped)
    {
      var key := TraceKey(reading, runs[i]);
      GroupsGrow(reading, runs, i);
      grouped := grouped[key := (if key in grouped then grouped[key] else []) + [runs[i]]];
    }
    assert runs[..|runs|] == runs;
  }

  ghost predicate Grouped(reading: Reading, runs: seq<Run>, grouped: map<string, seq<Run>>) {
    forall key :: GroupOf(reading, key, runs) == if key in grouped then grouped[key] else []
  }

  /** The loop over the groups, in the order of their keys. */
  method SummariseTraces(reading: Reading, runs: seq<Run>) returns (traces: seq<Trace>)
    ensures traces == Traces(reading, runs)
  {
    var grouped := GroupRuns(reading, runs);
    var keys := SortedKeys(reading, runs);
    ghost var all := TracesInKeyOrder(reading, runs);
    traces := [];
    for i := 0 to |keys|
      invariant traces == all[..i]
    {
      var trace := RecordGroup(reading, runs, keys[i], grouped);
      TakeOneMore(all, i);
      traces := traces + [trace];
    }
    assert all[..|keys|] == all;
    traces := Sort(Fresher, traces);
  }

  method RecordGroup(reading: Reading, runs: seq<Run>, key: string, grouped: map<string, seq<Run>>) returns (trace: Trace)
    requires Grouped(reading, runs, grouped) && key in SortedKeys(reading, runs)
    ensures trace == TraceFor(reading, runs, key)
  {
    GroupsAreNonEmpty(reading, key, runs);
    assert GroupOf(reading, key, runs) == grouped[key];
    var group := Sort(Earlier, grouped[key]);
    trace := TraceOf(reading, key, group);
  }

  lemma GroupsGrow(reading: Reading, runs: seq<Run>, i: nat)
    requires i < |runs|
    ensures forall key :: GroupOf(reading, key, runs[..i + 1]) ==
                          GroupOf(reading, key, runs[..i]) + if TraceKey(reading, runs[i]) == key then [runs[i]] else []
  {
    forall key
      ensures GroupOf(reading, key, runs[..i + 1]) ==
              GroupOf(reading, key, runs[..i]) + if TraceKey(reading, runs[i]) == key then [runs[i]] else []
    {
      FilterGrows(InTrace(reading, key), runs, i);
    }
  }

  // ----- the traces partition the runs -----

  function TotalRuns(traces: seq<Trace>): nat {
    if traces == [] then 0 else TotalRuns(traces[..|traces| - 1]) + traces[|traces| - 1].runCount
  }

  function TotalIn(reading: Reading, keys: seq<string>, runs: seq<Run>): nat {
    if keys == [] then 0 else TotalIn(reading, keys[..|keys| - 1], runs) + |GroupOf(reading, keys[|keys| - 1], runs)|
  }

  /** One run more adds one to the group of its key and nothing to the others. */
  lemma {:induction false} OneRunMore(reading: Reading, keys: seq<string>, runs: seq<Run>, r: Run)
    requires Distinct(keys)
    ensures TotalIn(reading, keys, runs + [r]) == TotalIn(reading, keys, runs) + if TraceKey(reading, r) in keys then 1 else 0
  {
    if keys != [] {
      var front, last := keys[..|keys| - 1], keys[|keys| - 1];
      OneRunMore(reading, front, runs, r);
      FilterAppends(InTrace(reading, last), runs, [r]);
      assert Filter(InTrace(reading, last), [r]) == if TraceKey(reading, r) == last then [r] else [];
      assert keys == front + [last];
    }
  }

  lemma {:induction false} KeysCoverRuns(reading: Reading, keys: seq<string>, runs: seq<Run>)
    requires Distinct(keys) && forall i :: 0 <= i < |runs| ==> TraceKey(reading, runs[i]) in keys
    ensures TotalIn(reading, keys, runs) == |runs|
  {
    if runs == [] {
      NoRunsNoTotal(reading, keys);
    } else {
      var front, last := runs[..|runs| - 1], runs[|runs| - 1];
      KeysCoverRuns(reading, keys, front);
      OneRunMore(reading, keys, front, last);
      assert runs == front + [last];
    }
  }

  lemma {:induction false} NoRunsNoTotal(reading: Reading, keys: seq<string>)
    ensures TotalIn(reading, keys, []) == 0
  {
    if keys != [] {
      NoRunsNoTotal(reading, keys[..|keys| - 1]);
    }
  }

  lemma {:induction false} TotalOfTraces(reading: Reading, runs: seq<Run>, traces: seq<Trace>, keys: seq<string>)
    requires |traces| == |keys|
    requires forall i :: 0 <= i < |traces| ==> traces[i].runCount == |GroupOf(reading, keys[i], runs)|
    ensures TotalRuns(traces) == TotalIn(reading, keys, runs)
  {
    if traces != [] {
      TotalOfTraces(reading, runs, traces[..|traces| - 1], keys[..|keys| - 1]);
    }
  }

  lemma TracesCountGroups(reading: Reading, runs: seq<Run>)
    ensures forall i :: 0 <= i < |TracesInKeyOrder(reading, runs)| ==>
              TracesInKeyOrder(reading, runs)[i].runCount == |GroupOf(reading, SortedKeys(reading, runs)[i], runs)|
  {
    forall i | 0 <= i < |TracesInKeyOrder(reading, runs)|
      ensures TracesInKeyOrder(reading, runs)[i].runCount == |GroupOf(reading, SortedKeys(reading, runs)[i], runs)|
    {
      assert TracesInKeyOrder(reading, runs)[i] == TraceFor(reading, runs, SortedKeys(reading, runs)[i]);
    }
  }

  lemma SortKeepsDistinct(s: seq<string>)
    requires Distinct(s)
    ensures Distinct(Sort(AtMost, s))
  {
    SortIsRearrangement(AtMost, s);
    var t := Sort(AtMost, s);
    forall i, j | 0 <= i < j < |t|
      ensures t[i] != t[j]
    {
      OccursOnce(s, t[i]);
      OccursTwice(t, i, j);
    }
  }

  lemma {:induction false} OccursOnce(s: seq<string>, x: string)
    requires Distinct(s)
    ensures multiset(s)[x] <= 1
  {
    if s != [] {
      assert s == s[..|s| - 1] + [s[|s| - 1]];
      OccursOnce(s[..|s| - 1], x);
      if x == s[|s| - 1] {
        assert x !in s[..|s| - 1];
      }
    }
  }

  lemma OccursTwice(s: seq<string>, i: nat, j: nat)
    requires i < j < |s|
    ensures s[i] == s[j] ==> multiset(s)[s[i]] >= 2
  {
    assert s == s[..i] + [s[i]] + s[i + 1..j] + [s[j]] + s[j + 1..];
  }

  lemma SortedKeysCover(reading: Reading, runs: seq<Run>)
    ensures Distinct(SortedKeys(reading, runs))
    ensures forall i :: 0 <= i < |runs| ==> TraceKey(reading, runs[i]) in SortedKeys(reading, runs)
  {
    var keys := KeysOf(KeyReader(reading), runs);
    KeysAreDistinct(KeyReader(reading), runs);
    SortKeepsDistinct(keys);
    SortKeepsElements(AtMost, keys);
    forall i | 0 <= i < |runs|
      ensures TraceKey(reading, runs[i]) in SortedKeys(reading, runs)
    {
      assert KeyReader(reading)(runs[i]) in keys;
    }
  }

  /** Every run is counted in one trace: the run counts add up to the number of runs. */
  lemma TracesPartitionRuns(reading: Reading, runs: seq<Run>)
    ensures Distinct(SortedKeys(reading, runs))
    ensures TotalRuns(TracesInKeyOrder(reading, runs)) == |runs|
  {
    var keys := SortedKeys(reading, runs);
    SortedKeysCover(reading, runs);
    KeysCoverRuns(reading, keys, runs);
    TracesCountGroups(reading, runs);
    TotalOfTraces(reading, runs, TracesInKeyOrder(reading, runs), keys);
  }

  /** The summary lists those traces, most recently seen first. */
  lemma TracesAreListedByRecency(reading: Reading, runs: seq<Run>)
    ensures multiset(Traces(reading, runs)) == multiset(TracesInKeyOrder(reading, runs))
    ensures Sorted(Fresher, Traces(reading, runs))
  {
    SortIsRearrangement(Fresher, TracesInKeyOrder(reading, runs));
    SortSorted(Fresher, TracesInKeyOrder(reading, runs));
  }

  /** A trace spans from its earliest to its latest run, so no duration is negative. */
  lemma TraceSpansItsRuns(reading: Reading, runs: seq<Run>, key: string, r: Run)
    requires key in SortedKeys(reading, runs)
    ensures var t := TraceFor(reading, runs, key);
            && t.duration == t.lastSeen - t.firstSeen >= 0
            && (r in runs && TraceKey(reading, r) == key ==> t.firstSeen <= r.createdAt <= t.lastSeen)
  {
    var group := GroupOf(reading, key, runs);
    var ordered := Sort(Earlier, group);
    GroupsAreNonEmpty(reading, key, runs);
    EarlierIsTotalPreorder();
    SortSorted(Earlier, group);
    SortKeepsElements(Earlier, group);
    FilterElements(InTrace(reading, key), runs);
    if r in runs && TraceKey(reading, r) == key {
      assert r in group;
      assert r in ordered;
      var i :| 0 <= i < |ordered| && ordered[i] == r;
    }
  }

  /** The counts of a trace are those of its dashboard, which names no failure exactly when all is well. */
  lemma DashboardAgreesWithTrace(reading: Reading, key: string, group: seq<Run>)
    requires group != []
    ensures var t := TraceOf(reading, key, group);
            && t.dashboard.commands == t.commandCount && t.dashboard.polls == t.pollCount && t.dashboard.failures == t.errorCount
            && (t.dashboard.domain == NoDomain <==> t.errorCount == 0 && (group[|group| - 1].turnId.None? || t.terminal))
            && (t.dashboard.domain == NonTerminalPoll <==> t.errorCount == 0 && group[|group| - 1].turnId.Some? && !t.terminal)
  {
  }

  function TotalFailures(traces: seq<Trace>): nat {
    if traces == [] then 0 else TotalFailures(traces[..|traces| - 1]) + traces[|traces| - 1].dashboard.failures
  }

  function ErrorTest(reading: Reading): Run -> bool {
    (r: Run) => IsError(reading, r)
  }

  lemma {:induction false} FiltersCommute(p: Run -> bool, q: Run -> bool, runs: seq<Run>)
    ensures Filter(p, Filter(q, runs)) == Filter(q, Filter(p, runs))
  {
    var both := (r: Run) => p(r) && q(r);
    FilterTwice(q, p, both, runs);
    FilterTwice(p, q, both, runs);
  }

  /** A trace's dashboard counts as failures its group's runs among those that failed. */
  lemma FailuresOfTrace(reading: Reading, runs: seq<Run>, key: string)
    requires key in SortedKeys(reading, runs)
    ensures TraceFor(reading, runs, key).dashboard.failures == |GroupOf(reading, key, Filter(ErrorTest(reading), runs))|
  {
    var group, failed := GroupOf(reading, key, runs), ErrorTest(reading);
    var ordered := Sort(Earlier, group);
    GroupsAreNonEmpty(reading, key, runs);
    SortIsRearrangement(Earlier, group);
    DashboardAgreesWithTrace(reading, key, ordered);
    FilterSame(failed, (r: Run) => IsError(reading, r), ordered);
    FilterCountOfRearranged(failed, group, ordered);
    FiltersCommute(failed, InTrace(reading, key), runs);
  }

  lemma {:induction false} FailuresOfTraces(reading: Reading, runs: seq<Run>, failed: seq<Run>, traces: seq<Trace>, keys: seq<string>)
    requires |traces| == |keys|
    requires forall i :: 0 <= i < |traces| ==> traces[i].dashboard.failures == |GroupOf(reading, keys[i], failed)|
    ensures TotalFailures(traces) == TotalIn(reading, keys, failed)
  {
    if traces != [] {
      FailuresOfTraces(reading, runs, failed, traces[..|traces| - 1], keys[..|keys| - 1]);
    }
  }

  /** Every failed run shows on one dashboard: the dashboards' failures add up to the runs that failed. */
  lemma DashboardsCountFailures(reading: Reading, runs: seq<Run>)
    ensures TotalFailures(TracesInKeyOrder(reading, runs)) == |Filter(ErrorTest(reading), runs)|
  {
    var keys, traces, failed := SortedKeys(reading, runs), TracesInKeyOrder(reading, runs), Filter(ErrorTest(reading), runs);
    SortedKeysCover(reading, runs);
    FilterElements(ErrorTest(reading), runs);
    forall i | 0 <= i < |failed|
      ensures TraceKey(reading, failed[i]) in keys
    {
      assert failed[i] in failed;
    }
    KeysCoverRuns(reading, keys, failed);
    forall i | 0 <= i < |traces|
      ensures traces[i].dashboard.failures == |GroupOf(reading, keys[i], failed)|
    {
      assert traces[i] == TraceFor(reading, runs, keys[i]);
      FailuresOfTrace(reading, runs, keys[i]);
    }
    FailuresOfTraces(reading, runs, failed, traces, keys);
  }

  // ----- the detail of one trace -----

  datatype Detail = Detail(trace: Trace, runs: seq<Run>, terminal: nat, nonTerminal: nat, errors: seq<string>, latestResponse: string)

  function ErrorsOf(runs: seq<Run>): seq<string> {
    if runs == [] then []
    else ErrorsOf(runs[..|runs| - 1]) + if runs[|runs| - 1].error.Some? then [runs[|runs| - 1].error.value] else []
  }

  function FindTrace(traces: seq<Trace>, key: string): Option<Trace> {
    if traces == [] then None else if traces[0].key == key then Some(traces[0]) else FindTrace(traces[1..], key)
  }

  method TraceDetail(reading: Reading, runs: seq<Run>, key: string) returns (r: Result<Detail>)
    ensures r.Ok? <==> key in SortedKeys(reading, runs)
    ensures r.Ok? ==>
              && r.value.trace == TraceFor(reading, runs, key) && FindTrace(Traces(reading, runs), key) == Some(r.value.trace)
              && r.value.runs == Sort(Earlier, GroupOf(reading, key, runs))
              && r.value.terminal + r.value.nonTerminal == |r.value.runs|
              && r.value.terminal == CountRuns((x: Run) => reading.terminal(x.status), r.value.runs)
              && r.value.errors == ErrorsOf(r.value.runs)
              && r.value.runs != [] && r.value.latestResponse == r.value.runs[|r.value.runs| - 1].response
  {
    var matching := GroupOf(reading, key, runs);
    GroupsAreNonEmpty(reading, key, runs);
    if matching == [] {
      return Err("Codex App Server trace not found");
    }
    matching := Sort(Earlier, matching);
    DetailFindsTheTrace(reading, runs, key);
    SummaryFindsTheTrace(reading, runs, key);
    var traces := SummariseTraces(reading, matching);
    var trace := FindTrace(traces, key);
    if trace.None? {
      return Err("Codex App Server trace not found");
    }
    var terminal, nonTerminal, errors := CountStatuses(reading, matching);
    return Ok(Detail(trace.value, matching, terminal, nonTerminal, errors, matching[|matching| - 1].response));
  }

  method CountStatuses(reading: Reading, matching: seq<Run>) returns (terminal: nat, nonTerminal: nat, errors: seq<string>)
    ensures terminal == CountRuns((x: Run) => reading.terminal(x.status), matching)
    ensures terminal + nonTerminal == |matching| && errors == ErrorsOf(matching)
  {
    terminal, nonTerminal, errors := 0, 0, [];
    ghost var isTerminal := (x: Run) => reading.terminal(x.status);
    for i := 0 to |matching|
      invariant terminal == CountRuns(isTerminal, matching[..i]) && terminal + nonTerminal == i
      invariant errors == ErrorsOf(matching[..i])
    {
      FilterGrows(isTerminal, matching, i);
      assert matching[..i + 1][..i] == matching[..i];
      if reading.terminal(matching[i].status) {
        terminal := terminal + 1;
      } else {
        nonTerminal := nonTerminal + 1;
      }
      if matching[i].error.Some? {
        errors := errors + [matching[i].error.value];
      }
    }
    assert matching[..|matching|] == matching;
  }

  lemma {:induction false} OneKeyOnly(reading: Reading, runs: seq<Run>, key: string)
    requires runs != [] && forall i :: 0 <= i < |runs| ==> TraceKey(reading, runs[i]) == key
    ensures KeysOf(KeyReader(reading), runs) == [key]
  {
    if |runs| == 1 {
      assert runs[..0] == [];
    } else {
      OneKeyOnly(reading, runs[..|runs| - 1], key);
    }
  }

  lemma {:induction false} FindOnlyTrace(traces: seq<Trace>, key: string, t: Trace)
    requires t in traces && t.key == key
    requires forall u :: u in traces && u.key == key ==> u == t
    ensures FindTrace(traces, key) == Some(t)
  {
    if traces[0].key != key {
      assert forall u :: u in traces[1..] ==> u in traces;
      FindOnlyTrace(traces[1..], key, t);
    } else {
      assert traces[0] in traces;
    }
  }

  lemma ListedTraces(reading: Reading, runs: seq<Run>, u: Trace)
    ensures u in Traces(reading, runs) <==> u in TracesInKeyOrder(reading, runs)
  {
    SortIsRearrangement(Fresher, TracesInKeyOrder(reading, runs));
    assert u in Traces(reading, runs) <==> u in multiset(Traces(reading, runs));
    assert u in TracesInKeyOrder(reading, runs) <==> u in multiset(TracesInKeyOrder(reading, runs));
  }

  lemma TraceOfKey(reading: Reading, runs: seq<Run>, u: Trace)
    requires u in TracesInKeyOrder(reading, runs)
    ensures u.key in SortedKeys(reading, runs) && u == TraceFor(reading, runs, u.key)
  {
    var i :| 0 <= i < |TracesInKeyOrder(reading, runs)| && TracesInKeyOrder(reading, runs)[i] == u;
  }

  /** The full summary lists one record of a key, the one made of its group. */
  lemma SummaryFindsTheTrace(reading: Reading, runs: seq<Run>, key: string)
    requires key in SortedKeys(reading, runs)
    ensures FindTrace(Traces(reading, runs), key) == Some(TraceFor(reading, runs, key))
  {
    var t := TraceFor(reading, runs, key);
    forall u | u in Traces(reading, runs) && u.key == key
      ensures u == t
    {
      ListedTraces(reading, runs, u);
      TraceOfKey(reading, runs, u);
    }
    KeyHasTrace(reading, runs, key);
    ListedTraces(reading, runs, t);
    FindOnlyTrace(Traces(reading, runs), key, t);
  }

  lemma KeyHasTrace(reading: Reading, runs: seq<Run>, key: string)
    requires key in SortedKeys(reading, runs)
    ensures TraceFor(reading, runs, key) in TracesInKeyOrder(reading, runs)
  {
    var i :| 0 <= i < |SortedKeys(reading, runs)| && SortedKeys(reading, runs)[i] == key;
    assert TracesInKeyOrder(reading, runs)[i] == TraceFor(reading, runs, key);
  }

  /** Filtering, sorting and summarising again finds the very record that the full summary lists. */
  lemma DetailIsTheSummarysRecord(reading: Reading, runs: seq<Run>, key: string)
    ensures FindTrace(Traces(reading, Sort(Earlier, GroupOf(reading, key, runs))), key) == FindTrace(Traces(reading, runs), key)
    ensures key in SortedKeys(reading, runs) <==> FindTrace(Traces(reading, runs), key).Some?
  {
    if key in SortedKeys(reading, runs) {
      DetailFindsTheTrace(reading, runs, key);
      SummaryFindsTheTrace(reading, runs, key);
    } else {
      GroupsAreNonEmpty(reading, key, runs);
      assert Traces(reading, []) == [];
      NoKeyNoTrace(reading, runs, key);
    }
  }

  lemma {:induction false} NotFound(traces: seq<Trace>, key: string)
    requires forall u :: u in traces ==> u.key != key
    ensures FindTrace(traces, key) == None
  {
    if traces != [] {
      assert traces[0] in traces;
      assert forall u :: u in traces[1..] ==> u in traces;
      NotFound(traces[1..], key);
    }
  }

  lemma NoKeyNoTrace(reading: Reading, runs: seq<Run>, key: string)
    requires key !in SortedKeys(reading, runs)
    ensures FindTrace(Traces(reading, runs), key) == None
  {
    forall u | u in Traces(reading, runs)
      ensures u.key != key
    {
      ListedTraces(reading, runs, u);
      TraceOfKey(reading, runs, u);
    }
    NotFound(Traces(reading, runs), key);
  }

  lemma DetailFindsTheTrace(reading: Reading, runs: seq<Run>, key: string)
    requires key in SortedKeys(reading, runs)
    ensures FindTrace(Traces(reading, Sort(Earlier, GroupOf(reading, key, runs))), key) == Some(TraceFor(reading, runs, key))
  {
    var group := GroupOf(reading, key, runs);
    var matching := Sort(Earlier, group);
    GroupsAreNonEmpty(reading, key, runs);
    FilterElements(InTrace(reading, key), runs);
    SortKeepsElements(Earlier, group);
    forall i | 0 <= i < |matching|
      ensures TraceKey(reading, matching[i]) == key
    {
      assert matching[i] in matching;
      assert matching[i] in group;
    }
    OneKeyOnly(reading, matching, key);
    FilterAll(InTrace(reading, key), matching);
    EarlierIsTotalPreorder();
    SortSorted(Earlier, group);
    SortOfSorted(Earlier, matching);
    OneKeyOneTrace(reading, matching, key);
  }

  lemma OneKeyOneTrace(reading: Reading, matching: seq<Run>, key: string)
    requires matching != [] && KeysOf(KeyReader(reading), matching) == [key]
    requires GroupOf(reading, key, matching) == matching && Sort(Earlier, matching) == matching
    ensures FindTrace(Traces(reading, matching), key) == Some(TraceOf(reading, key, matching))
  {
    assert SortedKeys(reading, matching) == [key];
    assert TracesInKeyOrder(reading, matching) == [TraceOf(reading, key, matching)];
  }
}
