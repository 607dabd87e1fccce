/**
  Delivery runs that overlap.  Each reads the log once and then writes to it candidate by
  candidate, while other runs and other writers do the same.
 */
module NotificationOverlap {
  import opened Wrappers
  import opened Sequences
  import opened NotificationRouting
  import opened NotificationRuns

  /** A log entry and the session that wrote it, if one of ours did. */
  datatype Entry = Entry(audit: Audit, writer: Option<nat>)

  /** A run under way: how much of the log it read, and how far it is through its candidates. */
  datatype Session = Session(run: Run, readAt: nat, pass: Pass, done: nat, progress: Progress, closed: bool)

  datatype State = State(log: seq<Entry>, sessions: seq<Session>)

  datatype Step =
    | Open(run: Run)
    | Proceed(session: nat)
    | Close(session: nat)
    | Other(audit: Audit)

  function Audits(log: seq<Entry>): seq<Audit> {
    Map((e: Entry) => e.audit, log)
  }

  /** What a session adds to the log in one turn. */
  function Added(before: Progress, after: Progress): seq<Audit> {
    if |before.audit| <= |after.audit| then after.audit[|before.audit|..] else []
  }

  function Signed(audits: seq<Audit>, writer: nat): seq<Entry> {
    Map((a: Audit) => Entry(a, Some(writer)), audits)
  }

  /** A session keeps apart what it wrote itself: its progress starts from an empty log. */
  function DoOpen(s: State, run: Run): State {
    s.(sessions := s.sessions + [Session(run, |s.log|, PassOf(run, Audits(s.log)), 0, Start(run, []), false)])
  }

  /** A session after its next turn. */
  function Advanced(session: Session): Session
    requires session.done < |Candidates(session.run)|
  {
    session.(done := session.done + 1, progress := Handle(session.pass, Candidates(session.run)[session.done], session.progress))
  }

  function DoProceed(s: State, i: nat): State
    requires i < |s.sessions| && s.sessions[i].done < |Candidates(s.sessions[i].run)|
  {
    var next := Advanced(s.sessions[i]);
    State(s.log + Signed(Added(s.sessions[i].progress, next.progress), i), s.sessions[i := next])
  }

  function DoClose(s: State, i: nat): State
    requires i < |s.sessions|
  {
    var session := s.sessions[i];
    State(s.log + [Entry(Audit(RUN_FINISHED, None, session.run.startedAt), Some(i))], s.sessions[i := session.(closed := true)])
  }

  predicate Complete(session: Session) {
    session.done >= |Candidates(session.run)|
  }

  /** A step that does not apply changes nothing. */
  function Do(s: State, step: Step): State {
    match step
    case Open(run) => DoOpen(s, run)
    case Proceed(i) => if i < |s.sessions| && !Complete(s.sessions[i]) then DoProceed(s, i) else s
    case Close(i) =>
      if i < |s.sessions| && Complete(s.sessions[i]) && !s.sessions[i].closed && !s.sessions[i].progress.aborted then DoClose(s, i) else s
    case Other(audit) => s.(log := s.log + [Entry(audit, None)])
  }

  function DoAll(steps: seq<Step>): State {
    if steps == [] then State([], []) else Do(DoAll(steps[..|steps| - 1]), steps[|steps| - 1])
  }

  // ----- what every step keeps -----

  predicate IsNotice(e: Entry, id: Id) {
    e.audit.action == NOTIFIED && e.audit.resource == Some(id)
  }

  /** Session `i` has done its first `done` turns on what it read. */
  ghost predicate InStep(log: seq<Entry>, session: Session) {
    && session.readAt <= |log| && session.pass == PassOf(session.run, Audits(log[..session.readAt]))
    && session.done <= |Candidates(session.run)|
    && session.progress == HandleFirst(session.pass, Candidates(session.run), session.done, Start(session.run, []))
  }

  /** An entry a session signed: written after its reading, for something it delivered. */
  predicate EntryFits(e: Entry, position: nat, i: nat, session: Session) {
    e.writer == Some(i) && e.audit.action == NOTIFIED ==>
      && session.readAt <= position && e.audit.resource.Some?
      && e.audit.resource.value in session.progress.delivered
      && e.audit.at == session.run.loggedAt(e.audit.resource.value)
  }

  ghost predicate SignedEntriesFit(log: seq<Entry>, i: nat, session: Session) {
    forall position :: 0 <= position < |log| ==> EntryFits(log[position], position, i, session)
  }

  ghost predicate NoticeBy(log: seq<Entry>, i: nat, id: Id, from: nat, to: nat)
    requires to <= |log|
  {
    exists position :: from <= position < to && log[position].writer == Some(i) && IsNotice(log[position], id)
  }

  ghost predicate DeliveriesAreSigned(log: seq<Entry>, i: nat, session: Session) {
    forall id :: id in session.progress.delivered ==> NoticeBy(log, i, id, session.readAt, |log|)
  }

  ghost predicate SessionInv(log: seq<Entry>, i: nat, session: Session) {
    InStep(log, session) && SignedEntriesFit(log, i, session) && DeliveriesAreSigned(log, i, session)
  }

  ghost predicate Inv(s: State) {
    && (forall i :: 0 <= i < |s.sessions| ==> SessionInv(s.log, i, s.sessions[i]))
    && forall position :: 0 <= position < |s.log| && s.log[position].writer.Some? ==> s.log[position].writer.value < |s.sessions|
  }

  /** Entries signed by others leave a session's invariant alone. */
  lemma OthersKeep(log: seq<Entry>, more: seq<Entry>, i: nat, session: Session)
    requires SessionInv(log, i, session) && forall k :: 0 <= k < |more| ==> more[k].writer != Some(i)
    ensures SessionInv(log + more, i, session)
  {
    var longer := log + more;
    assert longer[..session.readAt] == log[..session.readAt];
    forall position | 0 <= position < |longer|
      ensures EntryFits(longer[position], position, i, session)
    {
      if position < |log| {
        assert longer[position] == log[position];
      } else {
        assert longer[position] == more[position - |log|];
      }
    }
    forall id | id in session.progress.delivered
      ensures NoticeBy(longer, i, id, session.readAt, |longer|)
    {
      NoticeStays(log, more, i, id, session.readAt);
    }
  }

  lemma NoticeStays(log: seq<Entry>, more: seq<Entry>, i: nat, id: Id, from: nat)
    requires NoticeBy(log, i, id, from, |log|)
    ensures NoticeBy(log + more, i, id, from, |log + more|)
  {
    var position :| from <= position < |log| && log[position].writer == Some(i) && IsNotice(log[position], id);
    assert (log + more)[position] == log[position];
  }

  /** What one turn adds: a notice of each new delivery, and nothing else. */
  lemma TurnAdds(pass: Pass, a: Approval, p: Progress)
    ensures var q := Handle(pass, a, p);
            || (q.delivered == p.delivered && Added(p, q) == [])
            || (q.delivered == p.delivered + [a.id] && Added(p, q) == [Audit(NOTIFIED, Some(a.id), pass.loggedAt(a.id))])
  {
  }

  lemma OwnTurnKeeps(log: seq<Entry>, i: nat, session: Session)
    requires SessionInv(log, i, session) && session.done < |Candidates(session.run)|
    ensures SessionInv(log + Signed(Added(session.progress, Advanced(session).progress), i), i, Advanced(session))
  {
    var a, next := Candidates(session.run)[session.done], Advanced(session);
    var after := next.progress;
    var more := Signed(Added(session.progress, after), i);
    var longer := log + more;
    TurnAdds(session.pass, a, session.progress);
    assert longer[..session.readAt] == log[..session.readAt];
    InStepAdvances(session, a);
    forall position | 0 <= position < |longer|
      ensures EntryFits(longer[position], position, i, next)
    {
      if position < |log| {
        assert EntryFits(log[position], position, i, session);
      } else {
        assert longer[position] == more[position - |log|];
        assert session.pass.loggedAt == session.run.loggedAt;
      }
    }
    forall id | id in after.delivered
      ensures NoticeBy(longer, i, id, session.readAt, |longer|)
    {
      if id in session.progress.delivered {
        NoticeStays(log, more, i, id, session.readAt);
      } else {
        assert longer[|log|] == more[0];
        assert IsNotice(longer[|log|], id);
      }
    }
  }

  lemma InStepAdvances(session: Session, a: Approval)
    requires session.done < |Candidates(session.run)| && a == Candidates(session.run)[session.done]
    requires session.progress == HandleFirst(session.pass, Candidates(session.run), session.done, Start(session.run, []))
    ensures Handle(session.pass, a, session.progress)
         == HandleFirst(session.pass, Candidates(session.run), session.done + 1, Start(session.run, []))
  {
  }

  lemma ClosingIsNoNotice()
    ensures RUN_FINISHED != NOTIFIED
  {
    assert |RUN_FINISHED| == 34 && |NOTIFIED| == 31;
  }

  lemma OwnClosingKeeps(log: seq<Entry>, i: nat, session: Session, e: Entry)
    requires SessionInv(log, i, session) && e.audit.action == RUN_FINISHED
    ensures SessionInv(log + [e], i, session.(closed := true))
  {
    ClosingIsNoNotice();
    var longer := log + [e];
    assert longer[..session.readAt] == log[..session.readAt];
    forall position | 0 <= position < |longer|
      ensures EntryFits(longer[position], position, i, session.(closed := true))
    {
      if position < |log| {
        assert EntryFits(log[position], position, i, session);
      }
    }
    forall id | id in session.progress.delivered
      ensures NoticeBy(longer, i, id, session.readAt, |longer|)
    {
      NoticeStays(log, [e], i, id, session.readAt);
    }
  }

  lemma TakenTurnKeeps(s: State, i: nat, session: Session, next: Session)
    requires Inv(s) && i < |s.sessions| && session == s.sessions[i] && session.done < |Candidates(session.run)|
    requires next == Advanced(session)
    ensures Inv(State(s.log + Signed(Added(session.progress, next.progress), i), s.sessions[i := next]))
  {
    assert SessionInv(s.log, i, session);
    OwnTurnKeeps(s.log, i, session);
    WritingKeeps(s, i, next, Signed(Added(session.progress, next.progress), i));
  }

  lemma ProceedKeeps(s: State, i: nat)
    requires Inv(s) && i < |s.sessions| && s.sessions[i].done < |Candidates(s.sessions[i].run)|
    ensures Inv(DoProceed(s, i))
  {
    TakenTurnKeeps(s, i, s.sessions[i], Advanced(s.sessions[i]));
  }

  lemma CloseKeeps(s: State, i: nat)
    requires Inv(s) && i < |s.sessions|
    ensures Inv(DoClose(s, i))
  {
    var e := Entry(Audit(RUN_FINISHED, None, s.sessions[i].run.startedAt), Some(i));
    OwnClosingKeeps(s.log, i, s.sessions[i], e);
    WritingKeeps(s, i, s.sessions[i].(closed := true), [e]);
  }

  lemma OtherKeeps(s: State, audit: Audit)
    requires Inv(s)
    ensures Inv(s.(log := s.log + [Entry(audit, None)]))
  {
    forall k | 0 <= k < |s.sessions|
      ensures SessionInv(s.log + [Entry(audit, None)], k, s.sessions[k])
    {
      OthersKeep(s.log, [Entry(audit, None)], k, s.sessions[k]);
    }
  }

  lemma StepKeepsInv(s: State, step: Step)
    requires Inv(s)
    ensures Inv(Do(s, step))
  {
    match step
    case Open(run) => OpenKeeps(s, run);
    case Proceed(i) =>
      if i < |s.sessions| && !Complete(s.sessions[i]) {
        ProceedKeeps(s, i);
      }
    case Close(i) =>
      if i < |s.sessions| && Complete(s.sessions[i]) && !s.sessions[i].closed && !s.sessions[i].progress.aborted {
        CloseKeeps(s, i);
      }
    case Other(audit) => OtherKeeps(s, audit);
  }

  /** One session moves on and signs what it adds. */
  lemma WritingKeeps(s: State, i: nat, next: Session, more: seq<Entry>)
    requires Inv(s) && i < |s.sessions| && forall k :: 0 <= k < |more| ==> more[k].writer == Some(i)
    requires SessionInv(s.log + more, i, next)
    ensures Inv(State(s.log + more, s.sessions[i := next]))
  {
    var t := State(s.log + more, s.sessions[i := next]);
    forall k | 0 <= k < |t.sessions|
      ensures SessionInv(t.log, k, t.sessions[k])
    {
      if k != i {
        OthersKeep(s.log, more, k, s.sessions[k]);
      }
    }
    forall position | 0 <= position < |t.log| && t.log[position].writer.Some?
      ensures t.log[position].writer.value < |t.sessions|
    {
      if position >= |s.log| {
        assert t.log[position] == more[position - |s.log|];
      }
    }
  }

  lemma OpenKeeps(s: State, run: Run)
    requires Inv(s)
    ensures Inv(DoOpen(s, run))
  {
    var t := DoOpen(s, run);
    var i := |s.sessions|;
    assert s.log[..|s.log|] == s.log;
    assert SessionInv(t.log, i, t.sessions[i]);
  }

  lemma {:induction false} InvAlways(steps: seq<Step>)
    ensures Inv(DoAll(steps))
  {
    if steps != [] {
      InvAlways(steps[..|steps| - 1]);
      StepKeepsInv(DoAll(steps[..|steps| - 1]), steps[|steps| - 1]);
    }
  }

  // ----- who is notified twice -----

  /** The part of the log a session read holds a notice by another. */
  ghost predicate HasRead(s: State, reader: nat, writer: nat, id: Id)
    requires reader < |s.sessions| && s.sessions[reader].readAt <= |s.log|
  {
    NoticeBy(s.log, writer, id, 0, s.sessions[reader].readAt)
  }

  /** Neither of the two wrote this notice, and a run started at `now` takes it for recent. */
  predicate ThirdPartyNotice(e: Entry, id: Id, now: int, p: nat, q: nat) {
    IsNotice(e, id) && e.audit.at >= now - DAY && e.writer != Some(p) && e.writer != Some(q)
  }

  /** Apart from what the other session may have written, nothing keeps this one from delivering. */
  ghost predicate Willing(s: State, reader: nat, other: nat, id: Id)
    requires reader < |s.sessions| && s.sessions[reader].readAt <= |s.log|
  {
    var session := s.sessions[reader];
    && Offers(session.run, id)
    && forall position :: 0 <= position < session.readAt ==>
         !ThirdPartyNotice(s.log[position], id, session.run.startedAt, reader, other)
  }

  /** A complete session delivered what a whole run on the log it read delivers. */
  lemma SessionIsOneRun(s: State, i: nat, id: Id)
    requires Inv(s) && i < |s.sessions| && Complete(s.sessions[i])
    ensures var session := s.sessions[i];
            && session.progress.delivered == Finish(session.run, Audits(s.log[..session.readAt])).delivered
            && (id in session.progress.delivered <==>
                Offers(session.run, id) && id !in RecentlyNotified(Audits(s.log[..session.readAt]), session.run.startedAt))
  {
    var session := s.sessions[i];
    assert SessionInv(s.log, i, session);
    var audit := Audits(s.log[..session.readAt]);
    SameDeliveries(session.pass, Candidates(session.run), session.done, Start(session.run, []), Start(session.run, audit));
    DeliveredIff(session.run, audit, id);
  }

  /** What a run delivers does not depend on the log it adds to. */
  lemma {:induction false} SameDeliveries(pass: Pass, candidates: seq<Approval>, n: nat, p: Progress, q: Progress)
    requires n <= |candidates| && q == p.(audit := q.audit)
    ensures HandleFirst(pass, candidates, n, q) == HandleFirst(pass, candidates, n, p).(audit := HandleFirst(pass, candidates, n, q).audit)
  {
    if n > 0 {
      SameDeliveries(pass, candidates, n - 1, p, q);
    }
  }

  /** What the read part of the log shows as recent. */
  lemma RecentIffNotice(log: seq<Entry>, readAt: nat, now: int, id: Id)
    requires readAt <= |log|
    ensures id in RecentlyNotified(Audits(log[..readAt]), now)
       <==> exists position :: 0 <= position < readAt && IsNotice(log[position], id) && log[position].audit.at >= now - DAY
  {
    var audit := Audits(log[..readAt]);
    RecentIff(audit, now, id);
    if Logged(audit, id, now - DAY) {
      var k :| 0 <= k < |audit| && audit[k].action == NOTIFIED && audit[k].resource == Some(id) && audit[k].at >= now - DAY;
      assert IsNotice(log[k], id);
    }
    if position :| 0 <= position < readAt && IsNotice(log[position], id) && log[position].audit.at >= now - DAY {
      assert audit[position] == log[position].audit;
    }
  }

  /** Sessions that start within a day of each other, and log no success before they start. */
  predicate Close24(p: Run, q: Run, id: Id) {
    && p.startedAt - q.startedAt <= DAY && q.startedAt - p.startedAt <= DAY
    && p.loggedAt(id) >= p.startedAt && q.loggedAt(id) >= q.startedAt
  }

  lemma DeliversIff(s: State, p: nat, q: nat, id: Id)
    requires Inv(s) && p < |s.sessions| && q < |s.sessions| && p != q && Complete(s.sessions[p])
    requires s.sessions[p].readAt <= |s.log|
    requires Close24(s.sessions[p].run, s.sessions[q].run, id)
    ensures id in s.sessions[p].progress.delivered <==> Willing(s, p, q, id) && !HasRead(s, p, q, id)
  {
    var reader, writer := s.sessions[p], s.sessions[q];
    var now := reader.run.startedAt;
    assert SessionInv(s.log, p, reader) && SessionInv(s.log, q, writer);
    SessionIsOneRun(s, p, id);
    RecentIffNotice(s.log, reader.readAt, now, id);
    forall position | 0 <= position < reader.readAt && IsNotice(s.log[position], id)
      ensures s.log[position].writer != Some(p)
      ensures s.log[position].writer == Some(q) ==> s.log[position].audit.at >= now - DAY
    {
      assert EntryFits(s.log[position], position, p, reader);
      assert EntryFits(s.log[position], position, q, writer);
    }
  }

  /**
    Two complete sessions that start within a day of each other both deliver an approval
    exactly if nothing else keeps either from it and neither read the other's notice.  Of the
    two, only the one that read later can have read the other's.
   */
  lemma BothDeliverIff(steps: seq<Step>, p: nat, q: nat, id: Id)
    requires var s := DoAll(steps);
             && p < |s.sessions| && q < |s.sessions| && p != q && Complete(s.sessions[p]) && Complete(s.sessions[q])
             && Close24(s.sessions[p].run, s.sessions[q].run, id)
    ensures var s := DoAll(steps);
            && s.sessions[p].readAt <= |s.log| && s.sessions[q].readAt <= |s.log|
            && (id in s.sessions[p].progress.delivered && id in s.sessions[q].progress.delivered
                <==> Willing(s, p, q, id) && Willing(s, q, p, id) && !HasRead(s, p, q, id) && !HasRead(s, q, p, id))
            && (s.sessions[p].readAt <= s.sessions[q].readAt ==> !HasRead(s, p, q, id))
  {
    var s := DoAll(steps);
    InvAlways(steps);
    assert SessionInv(s.log, p, s.sessions[p]) && SessionInv(s.log, q, s.sessions[q]);
    DeliversIff(s, p, q, id);
    DeliversIff(s, q, p, id);
    LaterIsNotRead(s, p, q, id);
  }

  lemma LaterIsNotRead(s: State, p: nat, q: nat, id: Id)
    requires p < |s.sessions| && q < |s.sessions| && SessionInv(s.log, q, s.sessions[q]) && s.sessions[p].readAt <= |s.log|
    ensures s.sessions[p].readAt <= s.sessions[q].readAt ==> !HasRead(s, p, q, id)
  {
    forall position | 0 <= position < s.sessions[p].readAt && s.log[position].writer == Some(q) && IsNotice(s.log[position], id)
      ensures position >= s.sessions[q].readAt
    {
      assert EntryFits(s.log[position], position, q, s.sessions[q]);
    }
  }

  lemma OneMoreStep(steps: seq<Step>, step: Step)
    ensures DoAll(steps + [step]) == Do(DoAll(steps), step)
  {
    assert (steps + [step])[..|steps|] == steps;
  }

  lemma TwoOpened(run: Run)
    ensures var first := Session(run, 0, PassOf(run, []), 0, Start(run, []), false);
            DoAll([Open(run), Open(run)]) == State([], [first, first])
  {
    OneMoreStep([], Open(run));
    OneMoreStep([Open(run)], Open(run));
    assert Audits([]) == [];
  }

  lemma TurnOfOne(s: State, i: nat)
    requires i < |s.sessions| && s.sessions[i].done == 0 && |Candidates(s.sessions[i].run)| == 1
    ensures var t := Do(s, Proceed(i));
            && |t.sessions| == |s.sessions| && t.sessions[i].run == s.sessions[i].run && t.sessions[i].done == 1
            && t.sessions[i].readAt == s.sessions[i].readAt
            && forall k :: 0 <= k < |s.sessions| && k != i ==> t.sessions[k] == s.sessions[k]
  {
  }

  lemma TwoTurns(run: Run)
    requires |Candidates(run)| == 1
    ensures var s := DoAll([Open(run), Open(run), Proceed(0), Proceed(1)]);
            |s.sessions| == 2 && forall i :: 0 <= i < 2 ==> s.sessions[i].run == run && s.sessions[i].done == 1 && s.sessions[i].readAt == 0
  {
    var two := [Open(run), Open(run)];
    TwoOpened(run);
    TurnOfOne(DoAll(two), 0);
    OneMoreStep(two, Proceed(0));
    TurnOfOne(DoAll(two + [Proceed(0)]), 1);
    OneMoreStep(two + [Proceed(0)], Proceed(1));
    assert two + [Proceed(0)] + [Proceed(1)] == [Open(run), Open(run), Proceed(0), Proceed(1)];
  }

  lemma NothingReadNothingRecent(s: State, i: nat, id: Id)
    requires Inv(s) && i < |s.sessions| && Complete(s.sessions[i]) && s.sessions[i].readAt == 0 && Offers(s.sessions[i].run, id)
    ensures id in s.sessions[i].progress.delivered
  {
    SessionIsOneRun(s, i, id);
    assert Audits(s.log[..0]) == [];
  }

  /** Two runs that read the log before either wrote to it: the approval goes out twice. */
  lemma OverlapDeliversTwice()
    ensures var run := RunOverTwo(Answering());
            var s := DoAll([Open(run), Open(run), Proceed(0), Proceed(1)]);
            && |s.sessions| == 2 && Complete(s.sessions[0]) && Complete(s.sessions[1])
            && WAITING.id in s.sessions[0].progress.delivered && WAITING.id in s.sessions[1].progress.delivered
  {
    var run := RunOverTwo(Answering());
    OneCandidate(Answering());
    FullDeliveryIsOffered();
    BothSessionsDeliver(run, WAITING.id);
  }

  lemma BothSessionsDeliver(run: Run, id: Id)
    requires |Candidates(run)| == 1 && Offers(run, id)
    ensures var s := DoAll([Open(run), Open(run), Proceed(0), Proceed(1)]);
            && |s.sessions| == 2 && Complete(s.sessions[0]) && Complete(s.sessions[1])
            && id in s.sessions[0].progress.delivered && id in s.sessions[1].progress.delivered
  {
    var steps := [Open(run), Open(run), Proceed(0), Proceed(1)];
    TwoTurns(run);
    InvAlways(steps);
    NothingReadNothingRecent(DoAll(steps), 0, id);
    NothingReadNothingRecent(DoAll(steps), 1, id);
  }
}
