/** The rollout summary, and its agreement with the due run it announces. */
module ReleaseSummary {
  import opened Wrappers
  import opened Sequences
  import opened Text
  import opened ReleaseAutomation

  const DAY: int := 86_400

  datatype Note =
    | ReconciliationInProgress | FailedRetryable | ExpiredPending | ExpiringSoon | StalePending
    | AutomationReady | Held(reason: Reason)

  datatype Item = Item(id: Id, environment: string, status: Status, notes: seq<Note>)

  datatype Latest = Latest(id: Id, promotedAt: int)

  datatype Summary = Summary(
    byStatus: map<Status, nat>,
    byEnvironment: map<string, nat>,
    pending: nat,
    promoted: nat,
    rejected: nat,
    rolledBack: nat,
    auto: nat,
    manual: nat,
    expired: nat,
    expiringSoon: nat,
    stale: nat,
    latest: map<string, Latest>,
    attention: seq<Item>)

  predicate IsPending(r: Release) {
    PendingStatus(r.status)
  }

  /** What the summary finds out about a pending release. */
  datatype Facts = Facts(auto: bool, expired: bool, soon: bool, stale: bool, notes: seq<Note>)

  type Inspection = Release -> Facts

  predicate ExpiredNow(parse: ParseTime, r: Release, now: int) {
    r.status != InProgress && IsExpired(parse, r, now)
  }

  predicate SoonExpired(parse: ParseTime, r: Release, now: int) {
    var expiresAt := PolicyTime(parse, r, "expires_at");
    r.status != InProgress && !IsExpired(parse, r, now) && expiresAt.Some? && expiresAt.value <= now + DAY
  }

  predicate Stale(r: Release, now: int) {
    r.requestedAt.Some? && r.requestedAt.value < now - DAY
  }

  function ExpiryNotes(parse: ParseTime, r: Release, now: int): seq<Note> {
    if ExpiredNow(parse, r, now) then [ExpiredPending] else if SoonExpired(parse, r, now) then [ExpiringSoon] else []
  }

  function StateNotes(parse: ParseTime, r: Release, now: int): seq<Note> {
    if r.status == InProgress then [ReconciliationInProgress]
    else (if r.status == PromotionFailed then [FailedRetryable] else []) + ExpiryNotes(parse, r, now)
  }

  function DecisionNotes(parse: ParseTime, r: Release, now: int): seq<Note> {
    if r.status == InProgress then []
    else
      match DueDecision(parse, r, now)
      case Promote => [AutomationReady]
      case Skip(reason) => [Held(reason)]
  }

  function Notes(parse: ParseTime, r: Release, now: int): seq<Note> {
    StateNotes(parse, r, now) + (if Stale(r, now) then [StalePending] else []) + DecisionNotes(parse, r, now)
  }

  function Inspect(parse: ParseTime, now: int): Inspection {
    r => Facts(AutoApproved(r), ExpiredNow(parse, r, now), SoonExpired(parse, r, now), Stale(r, now), Notes(parse, r, now))
  }

  function Raise(m: map<string, nat>, key: string): map<string, nat> {
    m[key := (if key in m then m[key] else 0) + 1]
  }

  function RaiseStatus(m: map<Status, nat>, key: Status): map<Status, nat> {
    m[key := (if key in m then m[key] else 0) + 1]
  }

  /** A promotion replaces the one on record only if it is strictly later. */
  function KeepLatest(latest: map<string, Latest>, r: Release): map<string, Latest> {
    if r.status != Promoted || r.promotedAt.None? then latest
    else if r.environment in latest && latest[r.environment].promotedAt >= r.promotedAt.value then latest
    else latest[r.environment := Latest(r.id, r.promotedAt.value)]
  }

  function One(b: bool): nat {
    if b then 1 else 0
  }

  function Add(s: Summary, r: Release, f: Facts): Summary {
    Summary(RaiseStatus(s.byStatus, r.status), Raise(s.byEnvironment, r.environment),
            s.pending + One(IsPending(r)), s.promoted + One(r.status == Promoted), s.rejected + One(r.status == Rejected),
            s.rolledBack + One(r.status == RolledBack),
            s.auto + One(IsPending(r) && f.auto), s.manual + One(IsPending(r) && !f.auto),
            s.expired + One(IsPending(r) && f.expired), s.expiringSoon + One(IsPending(r) && !f.expired && f.soon),
            s.stale + One(IsPending(r) && f.stale), KeepLatest(s.latest, r),
            if IsPending(r) then s.attention + [Item(r.id, r.environment, r.status, f.notes)] else s.attention)
  }

  const EMPTY := Summary(map[], map[], 0, 0, 0, 0, 0, 0, 0, 0, 0, map[], [])

  /** The summary of the first `n` releases, its items not yet in order. */
  function Gather(facts: Inspection, releases: seq<Release>, n: nat): Summary
    requires n <= |releases|
  {
    if n == 0 then EMPTY else Add(Gather(facts, releases, n - 1), releases[n - 1], facts(releases[n - 1]))
  }

  // ----- the order of attention -----

  function Priority(notes: seq<Note>): nat {
    if ExpiredPending in notes then 0
    else if Held(ScoreBelowMinimum) in notes then 1
    else if StalePending in notes then 2
    else if ExpiringSoon in notes then 3
    else if AutomationReady in notes then 4
    else 5
  }

  predicate Before(a: Item, b: Item) {
    if Priority(a.notes) != Priority(b.notes) then Priority(a.notes) < Priority(b.notes)
    else if a.environment != b.environment then AtMost(a.environment, b.environment)
    else a.id <= b.id
  }

  lemma BeforeIsTotalPreorder()
    ensures TotalPreorder(Before)
  {
    forall a, b
      ensures Before(a, b) || Before(b, a)
    {
      AtMostTotal(a.environment, b.environment);
    }
    forall a, b, c | Before(a, b) && Before(b, c)
      ensures Before(a, c)
    {
      if Priority(a.notes) == Priority(b.notes) == Priority(c.notes) && a.environment != b.environment && b.environment != c.environment {
        AtMostTransitive(a.environment, b.environment, c.environment);
        AtMostTotal(a.environment, b.environment);
      }
    }
  }

  function Summarised(parse: ParseTime, releases: seq<Release>, now: int): Summary {
    var s := Gather(Inspect(parse, now), releases, |releases|);
    s.(attention := Sort(Before, s.attention))
  }

  /** The counters a pending release raises. */
  method CountPending(s: Summary, r: Release, f: Facts) returns (t: Summary)
    ensures t == s.(pending := s.pending + 1, auto := s.auto + One(f.auto), manual := s.manual + One(!f.auto),
                    expired := s.expired + One(f.expired), expiringSoon := s.expiringSoon + One(!f.expired && f.soon),
                    stale := s.stale + One(f.stale),
                    attention := s.attention + [Item(r.id, r.environment, r.status, f.notes)])
  {
    var auto, manual, expired, soon, stale := s.auto, s.manual, s.expired, s.expiringSoon, s.stale;
    if f.auto {
      auto := auto + 1;
    } else {
      manual := manual + 1;
    }
    if f.expired {
      expired := expired + 1;
    } else if f.soon {
      soon := soon + 1;
    }
    if f.stale {
      stale := stale + 1;
    }
    t := s.(pending := s.pending + 1, auto := auto, manual := manual, expired := expired, expiringSoon := soon, stale := stale,
            attention := s.attention + [Item(r.id, r.environment, r.status, f.notes)]);
  }

  /** One release's part in the maps and counters. */
  method CountRelease(s: Summary, r: Release, f: Facts) returns (t: Summary)
    ensures t == Add(s, r, f)
  {
    var u := s.(byStatus := RaiseStatus(s.byStatus, r.status), byEnvironment := Raise(s.byEnvironment, r.environment));
    match r.status {
      case PendingApproval | InProgress | PromotionFailed =>
        t := CountPending(u, r, f);
      case Promoted =>
        t := u.(promoted := u.promoted + 1);
        if r.promotedAt.Some? {
          if r.environment !in s.latest || s.latest[r.environment].promotedAt < r.promotedAt.value {
            t := t.(latest := s.latest[r.environment := Latest(r.id, r.promotedAt.value)]);
          }
        }
      case Rejected => t := u.(rejected := u.rejected + 1);
      case RolledBack => t := u.(rolledBack := u.rolledBack + 1);
      case _ => t := u;
    }
  }

  /** The loop over the releases. */
  method Collect(facts: Inspection, releases: seq<Release>) returns (s: Summary)
    ensures s == Gather(facts, releases, |releases|)
  {
    s := EMPTY;
    for i := 0 to |releases|
      invariant s == Gather(facts, releases, i)
    {
      s := CountRelease(s, releases[i], facts(releases[i]));
    }
  }

  method BuildSummary(parse: ParseTime, releases: seq<Release>, now: int) returns (s: Summary)
    ensures s == Summarised(parse, releases, now)
  {
    s := Collect(Inspect(parse, now), releases);
    s := s.(attention := Sort(Before, s.attention));
  }

  // ----- what the numbers mean -----

  lemma {:induction false} PendingIsCounted(facts: Inspection, releases: seq<Release>, n: nat)
    requires n <= |releases|
    ensures Gather(facts, releases, n).pending == |Filter(IsPending, releases[..n])|
  {
    if n > 0 {
      PendingIsCounted(facts, releases, n - 1);
      FilterGrows(IsPending, releases, n - 1);
    }
  }

  lemma {:induction false} ExpiredIsCounted(facts: Inspection, releases: seq<Release>, n: nat)
    requires n <= |releases|
    ensures Gather(facts, releases, n).expired == |Filter(r => IsPending(r) && facts(r).expired, releases[..n])|
  {
    if n > 0 {
      ExpiredIsCounted(facts, releases, n - 1);
      FilterGrows(r => IsPending(r) && facts(r).expired, releases, n - 1);
    }
  }

  /** Automatic and manual make up the pending releases, each of which has its item. */
  lemma {:induction false} PendingKindsAddUp(facts: Inspection, releases: seq<Release>, n: nat)
    requires n <= |releases|
    ensures var s := Gather(facts, releases, n);
            && s.auto + s.manual == s.pending == |s.attention|
            && s.expired + s.expiringSoon <= s.pending && s.stale <= s.pending
            && s.pending + s.promoted + s.rejected + s.rolledBack <= n
  {
    if n > 0 {
      PendingKindsAddUp(facts, releases, n - 1);
    }
  }

  ghost function Total<K(!new)>(m: map<K, nat>): nat {
    if m == map[] then 0
    else
      var k :| k in m;
      m[k] + Total(m - {k})
  }

  lemma {:induction false} TotalWithout<K(!new)>(m: map<K, nat>, k: K)
    requires k in m
    ensures Total(m) == m[k] + Total(m - {k})
    decreases |m|
  {
    var j :| j in m && Total(m) == m[j] + Total(m - {j});
    if j != k {
      TotalWithout(m - {j}, k);
      TotalWithout(m - {k}, j);
      assert (m - {j}) - {k} == (m - {k}) - {j};
    }
  }

  lemma TotalRaised<K(!new)>(m: map<K, nat>, raised: map<K, nat>, k: K)
    requires raised == m[k := (if k in m then m[k] else 0) + 1]
    ensures Total(raised) == Total(m) + 1
  {
    TotalWithout(raised, k);
    if k in m {
      TotalWithout(m, k);
    }
    assert raised - {k} == m - {k};
    if k !in m {
      assert m - {k} == m;
    }
  }

  /** The counts by status, and those by environment, add up to the number of releases. */
  lemma {:induction false} StatusCountsAddUp(facts: Inspection, releases: seq<Release>, n: nat)
    requires n <= |releases|
    ensures Total(Gather(facts, releases, n).byStatus) == n
  {
    if n > 0 {
      StatusCountsAddUp(facts, releases, n - 1);
      TotalRaised(Gather(facts, releases, n - 1).byStatus, Gather(facts, releases, n).byStatus, releases[n - 1].status);
    }
  }

  lemma {:induction false} EnvironmentCountsAddUp(facts: Inspection, releases: seq<Release>, n: nat)
    requires n <= |releases|
    ensures Total(Gather(facts, releases, n).byEnvironment) == n
  {
    if n > 0 {
      EnvironmentCountsAddUp(facts, releases, n - 1);
      TotalRaised(Gather(facts, releases, n - 1).byEnvironment, Gather(facts, releases, n).byEnvironment, releases[n - 1].environment);
    }
  }

  predicate PromotedIn(r: Release, environment: string) {
    r.status == Promoted && r.promotedAt.Some? && r.environment == environment
  }

  /** The i-th release is the environment's first promotion of the latest time. */
  ghost predicate FirstLatest(releases: seq<Release>, environment: string, i: nat) {
    && i < |releases| && PromotedIn(releases[i], environment)
    && (forall k :: 0 <= k < |releases| && PromotedIn(releases[k], environment) ==>
          releases[k].promotedAt.value <= releases[i].promotedAt.value
          && (k < i ==> releases[k].promotedAt.value < releases[i].promotedAt.value))
  }

  /** The record holds an environment's first latest promotion, and nothing if it has none. */
  ghost predicate RecordOk(releases: seq<Release>, environment: string, latest: map<string, Latest>) {
    if environment in latest then
      exists i: nat :: FirstLatest(releases, environment, i)
                       && latest[environment] == Latest(releases[i].id, releases[i].promotedAt.value)
    else forall k :: 0 <= k < |releases| ==> !PromotedIn(releases[k], environment)
  }

  lemma RecordGrows(releases: seq<Release>, r: Release, environment: string, latest: map<string, Latest>)
    requires RecordOk(releases, environment, latest)
    ensures RecordOk(releases + [r], environment, KeepLatest(latest, r))
  {
    var longer, n := releases + [r], |releases|;
    assert forall k :: 0 <= k < n ==> longer[k] == releases[k];
    if environment in latest {
      var i: nat :| FirstLatest(releases, environment, i)
                    && latest[environment] == Latest(releases[i].id, releases[i].promotedAt.value);
      if PromotedIn(r, environment) && r.promotedAt.value > releases[i].promotedAt.value {
        assert FirstLatest(longer, environment, n);
      } else {
        assert FirstLatest(longer, environment, i);
      }
    } else if PromotedIn(r, environment) {
      assert FirstLatest(longer, environment, n);
    }
  }

  /** Each environment's record is its first promotion of the latest time. */
  lemma {:induction false} LatestIsFirstLatest(facts: Inspection, releases: seq<Release>, n: nat, environment: string)
    requires n <= |releases|
    ensures RecordOk(releases[..n], environment, Gather(facts, releases, n).latest)
  {
    if n > 0 {
      LatestIsFirstLatest(facts, releases, n - 1, environment);
      RecordGrows(releases[..n - 1], releases[n - 1], environment, Gather(facts, releases, n - 1).latest);
      assert releases[..n] == releases[..n - 1] + [releases[n - 1]];
    }
  }

  /** The items come in order of priority, environment and id, and none is lost. */
  lemma AttentionInOrder(parse: ParseTime, releases: seq<Release>, now: int)
    ensures var gathered := Gather(Inspect(parse, now), releases, |releases|).attention;
            && Sorted(Before, Summarised(parse, releases, now).attention)
            && multiset(Summarised(parse, releases, now).attention) == multiset(gathered)
  {
    var gathered := Gather(Inspect(parse, now), releases, |releases|).attention;
    BeforeIsTotalPreorder();
    SortSorted(Before, gathered);
    SortIsRearrangement(Before, gathered);
  }

  /** Items never come before more urgent ones, and the expired come before all others. */
  lemma UrgentComesFirst(parse: ParseTime, releases: seq<Release>, now: int, i: nat, j: nat)
    requires i < j < |Summarised(parse, releases, now).attention|
    ensures var items := Summarised(parse, releases, now).attention;
            && Priority(items[i].notes) <= Priority(items[j].notes)
            && (ExpiredPending in items[j].notes ==> ExpiredPending in items[i].notes)
  {
    AttentionInOrder(parse, releases, now);
    assert Before(Summarised(parse, releases, now).attention[i], Summarised(parse, releases, now).attention[j]);
  }

  // ----- the summary and the run agree -----

  /** The run takes a release to the promotion branch. */
  predicate ReachesPromotion(parse: ParseTime, r: Release, now: int) {
    !(r.status != InProgress && IsExpired(parse, r, now)) && DueDecision(parse, r, now) == Promote
  }

  lemma NoteIsSomewhere(a: seq<Note>, b: seq<Note>, c: seq<Note>, note: Note)
    ensures note in a + b + c <==> note in a || note in b || note in c
  {
  }

  lemma ReadyIsNoted(parse: ParseTime, r: Release, now: int)
    requires r.status != InProgress
    ensures AutomationReady in Notes(parse, r, now) <==> DueDecision(parse, r, now) == Promote
  {
    NoteIsSomewhere(StateNotes(parse, r, now), if Stale(r, now) then [StalePending] else [], DecisionNotes(parse, r, now),
                    AutomationReady);
  }

  lemma ExpiredIsNoted(parse: ParseTime, r: Release, now: int)
    requires r.status != InProgress
    ensures ExpiredPending in Notes(parse, r, now) <==> ExpiredNow(parse, r, now)
  {
    NoteIsSomewhere(StateNotes(parse, r, now), if Stale(r, now) then [StalePending] else [], DecisionNotes(parse, r, now),
                    ExpiredPending);
    if ExpiredNow(parse, r, now) {
      assert ExpiryNotes(parse, r, now)[0] == ExpiredPending;
    }
  }

  /** A release not in progress is tried for promotion exactly when it is noted as ready and not as expired. */
  lemma NotesPredictPromotion(parse: ParseTime, r: Release, now: int)
    requires r.status != InProgress
    ensures ReachesPromotion(parse, r, now) <==> AutomationReady in Notes(parse, r, now) && ExpiredPending !in Notes(parse, r, now)
  {
    ReadyIsNoted(parse, r, now);
    ExpiredIsNoted(parse, r, now);
  }

  /** In a finished run the turn that expires a release falls to exactly the expired ones. */
  lemma ExpireTurnIff(around: Surroundings, r: Release)
    requires Runs(ScriptOf(around), r)
    ensures IsExpire(ScriptOf(around).turnOf(r)) <==> ExpiredNow(around.parse, r, around.now)
  {
    assert ScriptOf(around).turnOf(r) == TurnFor(around, r);
  }

  lemma CountedExpired(parse: ParseTime, releases: seq<Release>, now: int, listed: seq<Release>)
    requires multiset(listed) == multiset(Filter(IsPending, releases))
    ensures Summarised(parse, releases, now).expired == |Filter(r => ExpiredNow(parse, r, now), listed)|
    ensures Summarised(parse, releases, now).pending == |listed|
  {
    var facts, pending := Inspect(parse, now), Filter(IsPending, releases);
    var expired := r => ExpiredNow(parse, r, now);
    PendingIsCounted(facts, releases, |releases|);
    ExpiredIsCounted(facts, releases, |releases|);
    assert releases[..|releases|] == releases;
    FilterTwice(IsPending, expired, r => IsPending(r) && facts(r).expired, releases);
    FilterCountOfRearranged(expired, listed, pending);
    assert |multiset(listed)| == |listed| && |multiset(pending)| == |pending|;
  }

  /** A finished run at the same moment over the same releases rejects as many as the summary counts expired. */
  lemma ExpiredAreRejected(around: Surroundings, releases: seq<Release>, listed: seq<Release>)
    requires multiset(listed) == multiset(Filter(IsPending, releases))
    requires forall i :: 0 <= i < |listed| ==> Runs(ScriptOf(around), listed[i])
    ensures Summarised(around.parse, releases, around.now).expired == Count(ScriptOf(around), listed, IsExpire)
    ensures Summarised(around.parse, releases, around.now).pending == |listed|
  {
    CountedExpired(around.parse, releases, around.now, listed);
    forall r | r in listed
      ensures ExpiredNow(around.parse, r, around.now) <==> IsExpire(ScriptOf(around).turnOf(r))
    {
      var i :| 0 <= i < |listed| && listed[i] == r;
      assert Runs(ScriptOf(around), listed[i]);
      ExpireTurnIff(around, r);
    }
    FilterSame(r => ExpiredNow(around.parse, r, around.now), r => IsExpire(ScriptOf(around).turnOf(r)), listed);
  }
}
