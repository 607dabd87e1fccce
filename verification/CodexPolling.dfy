/** Which runs are polled, how long, and what a poll leaves behind. */
module CodexPolling {
  import opened Wrappers
  import opened Sequences
  import opened Text
  import opened CodexTraces

  // ----- the choice of candidates -----

  /** A turn's run that is not over and has not been heard of since the cutoff. */
  predicate Eligible(reading: Reading, r: Run, cutoff: int) {
    r.turnId.Some? && "turn." <= r.operation && !reading.terminal(r.status) && r.createdAt <= cutoff
  }

  function EligibleRuns(reading: Reading, runs: seq<Run>, cutoff: int): seq<Run> {
    Filter((r: Run) => Eligible(reading, r, cutoff), runs)
  }

  function TurnOf(r: Run): string {
    if r.turnId.Some? then r.turnId.value else ""
  }

  function OfTurn(turn: string): Run -> bool {
    (r: Run) => TurnOf(r) == turn
  }

  const Created: Run -> int := (r: Run) => r.createdAt

  /** The turns with an eligible run, in ascending order. */
  function Turns(eligible: seq<Run>): seq<string> {
    Sort(AtMost, KeysOf(TurnOf, eligible))
  }

  lemma TurnsHaveRuns(eligible: seq<Run>, turn: string)
    ensures turn in Turns(eligible) <==> Filter(OfTurn(turn), eligible) != []
  {
    KeysAreDistinct(TurnOf, eligible);
    SortKeepsElements(AtMost, KeysOf(TurnOf, eligible));
    FilterElements(OfTurn(turn), eligible);
    var ofTurn := Filter(OfTurn(turn), eligible);
    if ofTurn != [] {
      assert ofTurn[0] in ofTurn;
      assert ofTurn[0] in eligible;
      var i :| 0 <= i < |eligible| && eligible[i] == ofTurn[0];
      assert TurnOf(eligible[i]) in KeysOf(TurnOf, eligible);
    }
    if turn in Turns(eligible) {
      var i :| 0 <= i < |eligible| && TurnOf(eligible[i]) == turn;
      assert eligible[i] in eligible;
      assert eligible[i] in ofTurn;
    }
  }

  /** The first of the turn's most recent runs. */
  function CandidateFor(eligible: seq<Run>, turn: string): Run
    requires turn in Turns(eligible)
  {
    TurnsHaveRuns(eligible, turn);
    FirstGreatest(Created, Filter(OfTurn(turn), eligible))
  }

  function ByTurn(eligible: seq<Run>): (r: seq<Run>)
    ensures |r| == |Turns(eligible)|
    ensures forall i :: 0 <= i < |r| ==> r[i] == CandidateFor(eligible, Turns(eligible)[i])
  {
    var turns := Turns(eligible);
    seq(|turns|, i requires 0 <= i < |turns| => CandidateFor(eligible, turns[i]))
  }

  function SelectStale(reading: Reading, runs: seq<Run>, cutoff: int): seq<Run> {
    Sort(Earlier, ByTurn(EligibleRuns(reading, runs, cutoff)))
  }

  /** The map holds each turn's candidate among the eligible runs seen so far. */
  ghost predicate Latest(eligible: seq<Run>, latest: map<string, Run>) {
    forall turn :: LatestOf(Filter(OfTurn(turn), eligible), latest, turn)
  }

  ghost predicate LatestOf(ofTurn: seq<Run>, latest: map<string, Run>, turn: string) {
    if turn in latest then ofTurn != [] && latest[turn] == FirstGreatest(Created, ofTurn) else ofTurn == []
  }

  function KeepLatest(latest: map<string, Run>, r: Run): map<string, Run> {
    if TurnOf(r) in latest && latest[TurnOf(r)].createdAt >= r.createdAt then latest else latest[TurnOf(r) := r]
  }

  lemma GreatestGrows(s: seq<Run>, r: Run)
    ensures FirstGreatest(Created, s + [r]) ==
            if s == [] || FirstGreatest(Created, s).createdAt < r.createdAt then r else FirstGreatest(Created, s)
  {
    assert (s + [r])[..|s|] == s;
  }

  lemma LatestGrows(eligible: seq<Run>, r: Run, latest: map<string, Run>)
    requires Latest(eligible, latest)
    ensures Latest(eligible + [r], KeepLatest(latest, r))
  {
    forall turn
      ensures LatestOf(Filter(OfTurn(turn), eligible + [r]), KeepLatest(latest, r), turn)
    {
      var before := Filter(OfTurn(turn), eligible);
      assert LatestOf(before, latest, turn);
      FilterAppends(OfTurn(turn), eligible, [r]);
      if turn == TurnOf(r) {
        assert Filter(OfTurn(turn), [r]) == [r];
        GreatestGrows(before, r);
      } else {
        assert Filter(OfTurn(turn), [r]) == [];
        assert before + [] == before;
      }
    }
  }

  /** The selection loop. */
  method SelectLatest(reading: Reading, runs: seq<Run>, cutoff: int) returns (latest: map<string, Run>)
    ensures Latest(EligibleRuns(reading, runs, cutoff), latest)
  {
    latest := map[];
    ghost var eligible := (r: Run) => Eligible(reading, r, cutoff);
    for i := 0 to |runs|
      invariant Latest(Filter(eligible, runs[..i]), latest)
    {
      var run := runs[i];
      FilterGrows(eligible, runs, i);
      assert Filter(eligible, runs[..i]) + [] == Filter(eligible, runs[..i]);
      if eligible(run) {
        LatestGrows(Filter(eligible, runs[..i]), run, latest);
      }
      if run.turnId.None? || !("turn." <= run.operation) || reading.terminal(run.status) || run.createdAt > cutoff {
        continue;
      }
      var turn := run.turnId.value;
      if turn !in latest || latest[turn].createdAt < run.createdAt {
        latest := latest[turn := run];
      }
    }
    assert runs[..|runs|] == runs;
  }

  method SelectStaleRuns(reading: Reading, runs: seq<Run>, now: int, staleAfter: nat) returns (candidates: seq<Run>)
    ensures candidates == SelectStale(reading, runs, now - staleAfter)
  {
    var latest := SelectLatest(reading, runs, now - staleAfter);
    var eligible := EligibleRuns(reading, runs, now - staleAfter);
    var turns := Turns(eligible);
    ghost var all := ByTurn(eligible);
    candidates := [];
    for i := 0 to |turns|
      invariant candidates == all[..i]
    {
      TurnsHaveRuns(eligible, turns[i]);
      TakeOneMore(all, i);
      candidates := candidates + [latest[turns[i]]];
    }
    assert all[..|turns|] == all;
    candidates := Sort(Earlier, candidates);
  }

  // ----- what is chosen -----

  /** The eligible runs of one turn, as they stand in the list. */
  function EligibleOf(reading: Reading, runs: seq<Run>, cutoff: int, turn: string): seq<Run> {
    Filter((r: Run) => Eligible(reading, r, cutoff) && TurnOf(r) == turn, runs)
  }

  /** The run is the first of the most recent of its turn's eligible runs. */
  ghost predicate FirstMostRecent(reading: Reading, runs: seq<Run>, cutoff: int, r: Run) {
    var ofTurn := EligibleOf(reading, runs, cutoff, TurnOf(r));
    exists i: nat ::
      && i < |ofTurn| && ofTurn[i] == r
      && (forall k :: 0 <= k < |ofTurn| ==> ofTurn[k].createdAt <= r.createdAt)
      && (forall k :: 0 <= k < i ==> ofTurn[k].createdAt < r.createdAt)
  }

  lemma CandidateIsFirstMostRecent(reading: Reading, runs: seq<Run>, cutoff: int, turn: string)
    requires turn in Turns(EligibleRuns(reading, runs, cutoff))
    ensures var c := CandidateFor(EligibleRuns(reading, runs, cutoff), turn);
            TurnOf(c) == turn && FirstMostRecent(reading, runs, cutoff, c)
  {
    var eligible := EligibleRuns(reading, runs, cutoff);
    var ofTurn := Filter(OfTurn(turn), eligible);
    TurnsHaveRuns(eligible, turn);
    FilterTwice((r: Run) => Eligible(reading, r, cutoff), OfTurn(turn),
                (r: Run) => Eligible(reading, r, cutoff) && TurnOf(r) == turn, runs);
    FirstGreatestIsFirst(Created, ofTurn);
    var i: nat :| i < |ofTurn| && ofTurn[i] == FirstGreatest(Created, ofTurn)
                  && (forall k :: 0 <= k < |ofTurn| ==> Created(ofTurn[k]) <= Created(ofTurn[i]))
                  && (forall k :: 0 <= k < i ==> Created(ofTurn[k]) < Created(ofTurn[i]));
    FilterElements(OfTurn(turn), eligible);
    assert ofTurn[i] in ofTurn;
    assert ofTurn == EligibleOf(reading, runs, cutoff, TurnOf(ofTurn[i]));
    forall k | 0 <= k < |ofTurn|
      ensures ofTurn[k].createdAt <= ofTurn[i].createdAt && (k < i ==> ofTurn[k].createdAt < ofTurn[i].createdAt)
    {
      assert Created(ofTurn[k]) <= Created(ofTurn[i]);
      if k < i {
        assert Created(ofTurn[k]) < Created(ofTurn[i]);
      }
    }
  }

  lemma {:induction false} OneOfEachTurn(s: seq<Run>, turns: seq<string>, turn: string)
    requires |s| == |turns| && Distinct(turns) && forall i :: 0 <= i < |s| ==> TurnOf(s[i]) == turns[i]
    ensures |Filter(OfTurn(turn), s)| == if turn in turns then 1 else 0
  {
    if s != [] {
      OneOfEachTurn(s[1..], turns[1..], turn);
      if turns[0] == turn {
        assert turn !in turns[1..];
      }
      assert turns == [turns[0]] + turns[1..];
    }
  }

  lemma TurnsAreDistinct(eligible: seq<Run>)
    ensures Distinct(Turns(eligible))
  {
    KeysAreDistinct(TurnOf, eligible);
    SortKeepsDistinct(KeysOf(TurnOf, eligible));
  }

  /**
    The selection holds, in order of time, one run of each turn that has an eligible run,
    namely the first of its most recent ones, and nothing else.
   */
  lemma SelectionIsExact(reading: Reading, runs: seq<Run>, cutoff: int, r: Run, turn: string)
    ensures var chosen := SelectStale(reading, runs, cutoff);
            && Sorted(Earlier, chosen)
            && (r in chosen ==> FirstMostRecent(reading, runs, cutoff, r))
            && |Filter(OfTurn(turn), chosen)| == if EligibleOf(reading, runs, cutoff, turn) != [] then 1 else 0
  {
    var eligible := EligibleRuns(reading, runs, cutoff);
    var byTurn, chosen := ByTurn(eligible), SelectStale(reading, runs, cutoff);
    EarlierIsTotalPreorder();
    SortSorted(Earlier, byTurn);
    SortKeepsElements(Earlier, byTurn);
    SortIsRearrangement(Earlier, byTurn);
    TurnsAreDistinct(eligible);
    forall i | 0 <= i < |byTurn|
      ensures TurnOf(byTurn[i]) == Turns(eligible)[i] && FirstMostRecent(reading, runs, cutoff, byTurn[i])
    {
      CandidateIsFirstMostRecent(reading, runs, cutoff, Turns(eligible)[i]);
    }
    OneOfEachTurn(byTurn, Turns(eligible), turn);
    FilterCountOfRearranged(OfTurn(turn), chosen, byTurn);
    TurnsHaveRuns(eligible, turn);
    FilterTwice((x: Run) => Eligible(reading, x, cutoff), OfTurn(turn),
                (x: Run) => Eligible(reading, x, cutoff) && TurnOf(x) == turn, runs);
  }

  // ----- polling one run -----

  /** The answer to one status request. */
  datatype Answer = Answered(status: Option<string>, response: string) | Failed(message: string)

  /** The status an answer reports; a silent one counts as unknown. */
  function Reported(answer: Answer): string {
    match answer
    case Answered(status, _) => if status.Some? then status.value else "unknown"
    case Failed(_) => "poll_failed"
  }

  predicate IsTerminal(reading: Reading, answer: Answer) {
    answer.Answered? && reading.terminal(Reported(answer))
  }

  /** A terminal status ends a poll, and so does a failure of the last attempt. */
  predicate EndsPoll(reading: Reading, answer: Answer, last: bool) {
    IsTerminal(reading, answer) || (last && answer.Failed?)
  }

  /** The last response received by the n-th attempt, or the one on record. */
  function LastResponse(answers: nat -> Answer, n: nat, recorded: string): string {
    if n == 0 then recorded
    else if answers(n).Answered? then answers(n).response
    else LastResponse(answers, n - 1, recorded)
  }

  datatype Poll = Poll(run: Run, attempts: nat, terminal: bool, lastStatus: string)

  function Clamp(n: nat, least: nat, most: nat): (r: nat)
    requires least <= most
    ensures least <= r <= most
  {
    if n < least then least else if n > most then most else n
  }

  /** Whether the store lets the n-th attempt's outcome be written; if not, the poll is abandoned. */
  type Writes = nat -> bool

  /**
    The polling loop.  It stops at the first terminal status, or else at the limit; it
    reports a terminal outcome only then, or when its last permitted attempt failed; and
    whatever it records, it keeps the last response it received.
   */
  method PollRun(reading: Reading, run: Run, requested: nat, answers: nat -> Answer, writes: Writes) returns (r: Option<Poll>)
    ensures r.Some? ==> run.turnId.Some? && 1 <= r.value.attempts <= Clamp(requested, 1, 10)
    ensures r.Some? ==> forall k :: 1 <= k < r.value.attempts ==> !IsTerminal(reading, answers(k))
    ensures r.Some? ==> r.value.attempts < Clamp(requested, 1, 10) ==> IsTerminal(reading, answers(r.value.attempts))
    ensures r.Some? ==>
              (r.value.terminal <==> EndsPoll(reading, answers(r.value.attempts), r.value.attempts == Clamp(requested, 1, 10)))
    ensures r.Some? ==> r.value.lastStatus == Reported(answers(r.value.attempts)) == r.value.run.status
    ensures r.Some? ==> r.value.run.response == LastResponse(answers, r.value.attempts, run.response)
    ensures r.Some? ==> r.value.run.error == if answers(r.value.attempts).Failed? then Some(answers(r.value.attempts).message) else None
    ensures r.None? ==> run.turnId.None? || exists k :: 1 <= k <= Clamp(requested, 1, 10) && !writes(k)
  {
    if run.turnId.None? {
      return None;
    }
    var maxAttempts := Clamp(requested, 1, 10);
    var attempts, terminal, lastStatus, updated := 0, false, run.status, run;
    while attempts < maxAttempts && !terminal
      invariant 0 <= attempts <= maxAttempts
      invariant updated.response == LastResponse(answers, attempts, run.response)
      invariant forall k :: 1 <= k < attempts ==> !IsTerminal(reading, answers(k))
      invariant attempts == 0 ==> !terminal
      invariant attempts > 0 ==>
                  && lastStatus == Reported(answers(attempts)) == updated.status
                  && updated.error == (if answers(attempts).Failed? then Some(answers(attempts).message) else None)
                  && (terminal <==> EndsPoll(reading, answers(attempts), attempts == maxAttempts))
    {
      attempts := attempts + 1;
      var answer := answers(attempts);
      if !writes(attempts) {
        return None;
      }
      match answer {
        case Answered(status, response) =>
          lastStatus := if status.Some? then status.value else "unknown";
          terminal := reading.terminal(lastStatus);
          updated := updated.(status := lastStatus, response := response, error := None);
        case Failed(message) =>
          lastStatus := "poll_failed";
          updated := updated.(status := lastStatus, error := Some(message));
          terminal := attempts >= maxAttempts;
      }
    }
    return Some(Poll(updated, attempts, terminal, lastStatus));
  }

  // ----- a batch of polls -----

  datatype Batch = Batch(candidates: nat, polled: nat, terminal: nat, failed: nat, skipped: nat)

  /** Polls the stale runs, up to a limit; without a configured server it skips them all. */
  method PollStale(reading: Reading, runs: seq<Run>, now: int, requestedStale: nat, requestedRuns: nat, requestedAttempts: nat,
                   configured: bool, answers: (nat, nat) -> Answer, writes: (nat, nat) -> bool)
    returns (b: Batch)
    ensures b.candidates == |SelectStale(reading, runs, now - Clamp(requestedStale, 0, 86_400))|
    ensures b.polled + b.failed + b.skipped == b.candidates && b.terminal <= b.polled
    ensures !configured ==> b.skipped == b.candidates
    ensures configured ==> b.skipped == if b.candidates > Clamp(requestedRuns, 1, 100) then b.candidates - Clamp(requestedRuns, 1, 100) else 0
  {
    var maxRuns := Clamp(requestedRuns, 1, 100);
    var candidates := SelectStaleRuns(reading, runs, now, Clamp(requestedStale, 0, 86_400));
    if !configured {
      return Batch(|candidates|, 0, 0, 0, |candidates|);
    }
    var chosen := Take(maxRuns, candidates);
    var polled, terminal, failed := 0, 0, 0;
    for i := 0 to |chosen|
      invariant polled + failed == i && terminal <= polled
    {
      var poll := PollRun(reading, chosen[i], requestedAttempts, (k: nat) => answers(i, k), (k: nat) => writes(i, k));
      if poll.Some? {
        polled := polled + 1;
        if poll.value.terminal {
          terminal := terminal + 1;
        }
      } else {
        failed := failed + 1;
      }
    }
    return Batch(|candidates|, polled, terminal, failed, if |candidates| > maxRuns then |candidates| - maxRuns else 0);
  }
}
