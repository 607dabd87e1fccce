/** The escalation ladder: due runs that expire approvals or hand them on to the next group. */
module Escalation {
  import opened Wrappers
  import opened Json
  import opened Sequences
  import opened Text
  import opened NotificationRouting

  datatype Rule = Rule(
    id: Id,
    status: string,
    riskLevel: string,
    orderIndex: int,
    createdAt: int,
    afterSeconds: int,
    group: Id)

  /** Conversion to a 32-bit integer keeps the low bits, whatever they then mean. */
  function Wrap32(n: int): (r: int)
    ensures -0x8000_0000 <= r < 0x8000_0000
  {
    (n + 0x8000_0000) % 0x1_0000_0000 - 0x8000_0000
  }

  function AgeSeconds(approval: Approval, now: int): int {
    Wrap32(if now - approval.createdAt < 0 then 0 else now - approval.createdAt)
  }

  /** The rule recorded by the last escalation, if it was made by a rule. */
  function PreviousRule(setup: Setup, approval: Approval): Option<Id> {
    var escalation := Get(approval.evidence, "escalation");
    if escalation.None? then None
    else
      match AsStr(Get(escalation.value, "rule_id"))
      case None => None
      case Some(text) => setup.parse(text)
  }

  function FindRule(rules: seq<Rule>, id: Id): Option<Rule> {
    if rules == [] then None else if rules[0].id == id then Some(rules[0]) else FindRule(rules[1..], id)
  }

  function PreviousOrder(setup: Setup, rules: seq<Rule>, approval: Approval): Option<int> {
    var id := PreviousRule(setup, approval);
    if id.None? then None
    else
      match FindRule(rules, id.value)
      case None => None
      case Some(rule) => Some(rule.orderIndex)
  }

  /** An active rule of the approval's risk level, above the last one, whose time has come. */
  predicate Due(rule: Rule, approval: Approval, previous: Option<int>, age: int) {
    && rule.status == "active" && rule.riskLevel == approval.riskLevel
    && (previous.Some? ==> rule.orderIndex > previous.value)
    && age >= rule.afterSeconds
  }

  predicate Sooner(a: Rule, b: Rule) {
    a.orderIndex < b.orderIndex || (a.orderIndex == b.orderIndex && a.createdAt < b.createdAt)
  }

  /** The first of the least rules. */
  function Least(rules: seq<Rule>): Option<Rule> {
    if rules == [] then None
    else
      match Least(rules[1..])
      case None => Some(rules[0])
      case Some(rest) => if Sooner(rest, rules[0]) then Some(rest) else Some(rules[0])
  }

  function NextRule(setup: Setup, rules: seq<Rule>, approval: Approval, now: int): Option<Rule> {
    var previous, age := PreviousOrder(setup, rules, approval), AgeSeconds(approval, now);
    Least(Filter(r => Due(r, approval, previous, age), rules))
  }

  lemma {:induction false} LeastIsLeast(rules: seq<Rule>)
    ensures Least(rules).None? <==> rules == []
    ensures Least(rules).Some? ==>
              exists i :: 0 <= i < |rules| && rules[i] == Least(rules).value
                          && (forall k :: 0 <= k < |rules| ==> !Sooner(rules[k], rules[i]))
                          && (forall k :: 0 <= k < i ==> Sooner(rules[i], rules[k]))
  {
    if rules != [] {
      LeastIsLeast(rules[1..]);
      if rules[1..] != [] {
        var rest := rules[1..];
        var i :| 0 <= i < |rest| && rest[i] == Least(rest).value
                 && (forall k :: 0 <= k < |rest| ==> !Sooner(rest[k], rest[i]))
                 && (forall k :: 0 <= k < i ==> Sooner(rest[i], rest[k]));
        if Sooner(rest[i], rules[0]) {
          assert rules[i + 1] == rest[i];
          forall k | 0 <= k < |rules|
            ensures !Sooner(rules[k], rules[i + 1]) && (k < i + 1 ==> Sooner(rules[i + 1], rules[k]))
          {
            if k > 0 {
              assert rules[k] == rest[k - 1];
            }
          }
        } else {
          forall k | 0 <= k < |rules|
            ensures !Sooner(rules[k], rules[0])
          {
            if k > 0 {
              assert rules[k] == rest[k - 1];
              assert !Sooner(rest[k - 1], rest[i]);
            }
          }
        }
      }
    }
  }

  /** The chosen rule is due, and no due rule comes before it on the ladder. */
  lemma NextRuleIsLeastDue(setup: Setup, rules: seq<Rule>, approval: Approval, now: int)
    ensures var next := NextRule(setup, rules, approval, now);
            var previous, age := PreviousOrder(setup, rules, approval), AgeSeconds(approval, now);
            && (next.None? <==> forall r :: r in rules ==> !Due(r, approval, previous, age))
            && (next.Some? ==>
                  && next.value in rules && Due(next.value, approval, previous, age)
                  && forall r :: r in rules && Due(r, approval, previous, age) ==> !Sooner(r, next.value))
  {
    var previous, age := PreviousOrder(setup, rules, approval), AgeSeconds(approval, now);
    var due := Filter(r => Due(r, approval, previous, age), rules);
    FilterElements(r => Due(r, approval, previous, age), rules);
    LeastIsLeast(due);
    if due == [] {
      forall r | r in rules
        ensures !Due(r, approval, previous, age)
      {
        assert r !in due;
      }
    } else {
      var i :| 0 <= i < |due| && due[i] == Least(due).value && (forall k :: 0 <= k < |due| ==> !Sooner(due[k], due[i]));
      assert due[i] in due;
      forall r | r in rules && Due(r, approval, previous, age)
        ensures !Sooner(r, due[i])
      {
        assert r in due;
      }
    }
  }

  /** The age is the time waited exactly while that fits 31 bits. */
  lemma AgeIsWaitIff(approval: Approval, now: int)
    ensures var wait := now - approval.createdAt;
            AgeSeconds(approval, now) == (if wait < 0 then 0 else wait) <==> wait < 0x8000_0000
  {
  }

  /**
    A rule that is due but for its time, and has waited long enough, passes the time test
    exactly if the low 32 bits of the wait are not below its seconds and read as positive.
   */
  lemma AgeWrapsAround(approval: Approval, rule: Rule, now: int, previous: Option<int>)
    requires 0 <= rule.afterSeconds < 0x8000_0000 && now - approval.createdAt >= rule.afterSeconds
    ensures Due(rule, approval, previous, AgeSeconds(approval, now))
       <==> Due(rule, approval, previous, rule.afterSeconds)
            && rule.afterSeconds <= (now - approval.createdAt) % 0x1_0000_0000 < 0x8000_0000
  {
    LowBits(now - approval.createdAt);
  }

  /** A rule with the top bit of its low 32 set reads as negative; otherwise it is the remainder. */
  lemma LowBits(n: int)
    ensures var low := n % 0x1_0000_0000;
            Wrap32(n) == if low < 0x8000_0000 then low else low - 0x1_0000_0000
  {
    var low, times := n % 0x1_0000_0000, n / 0x1_0000_0000;
    assert n + 0x8000_0000 == times * 0x1_0000_0000 + (low + 0x8000_0000);
  }

  /** After 2^31 seconds a rule of five seconds is not due; ten seconds past 2^32 it is again. */
  lemma DueAgainAfterWrapping(approval: Approval, rule: Rule)
    requires rule.status == "active" && rule.riskLevel == approval.riskLevel && rule.afterSeconds == 5
    ensures !Due(rule, approval, None, AgeSeconds(approval, approval.createdAt + 0x8000_0000))
    ensures Due(rule, approval, None, AgeSeconds(approval, approval.createdAt + 0x1_0000_000A))
  {
    AgeWrapsAround(approval, rule, approval.createdAt + 0x8000_0000, None);
    AgeWrapsAround(approval, rule, approval.createdAt + 0x1_0000_000A, None);
  }

  // ----- escalating -----

  /** How an id is written; reading it back gives the id. */
  type ShowId = Id -> string

  ghost predicate ReadsBack(setup: Setup, show: ShowId) {
    forall id: Id :: setup.parse(show(id)) == Some(id) && Trim(show(id)) == show(id)
  }

  /** The fields an escalation writes over whatever the evidence held. */
  function Merge(evidence: Json, patch: map<string, Json>): Json {
    Obj((if evidence.Obj? then evidence.fields else map["details" := evidence]) + patch)
  }

  function EscalationPatch(show: ShowId, group: Id, name: string, rule: Option<Id>): map<string, Json> {
    map["approver_group_id" := Str(show(group)),
        "approver_group_name" := Str(name),
        "escalation" := Obj(map["rule_id" := if rule.Some? then Str(show(rule.value)) else Null,
                                "group_id" := Str(show(group))])]
  }

  function Escalate(show: ShowId, approval: Approval, group: Id, name: string, rule: Option<Id>): Approval {
    approval.(evidence := Merge(approval.evidence, EscalationPatch(show, group, name, rule)))
  }

  lemma MergedField(evidence: Json, patch: map<string, Json>, key: string)
    requires key in patch
    ensures Get(Merge(evidence, patch), key) == Some(patch[key])
  {
  }

  lemma PatchFields(show: ShowId, group: Id, name: string, rule: Option<Id>)
    ensures var patch := EscalationPatch(show, group, name, rule);
            && "approver_group_id" in patch && patch["approver_group_id"] == Str(show(group))
            && "approver_group_name" in patch && patch["approver_group_name"] == Str(name)
            && "escalation" in patch
            && AsStr(Get(patch["escalation"], "rule_id")) == if rule.Some? then Some(show(rule.value)) else None
  {
    assert |"approver_group_id"| == 17 && |"approver_group_name"| == 19 && |"escalation"| == 10 && |"rule_id"| == 7 && |"group_id"| == 8;
  }

  lemma EscalationRecordsRule(setup: Setup, show: ShowId, approval: Approval, group: Id, name: string, rule: Option<Id>)
    requires ReadsBack(setup, show)
    ensures PreviousRule(setup, Escalate(show, approval, group, name, rule)) == rule
  {
    PatchFields(show, group, name, rule);
    MergedField(approval.evidence, EscalationPatch(show, group, name, rule), "escalation");
    if rule.Some? {
      assert setup.parse(show(rule.value)) == rule;
    }
  }

  lemma EscalationRecordsGroup(setup: Setup, show: ShowId, approval: Approval, group: Id, name: string, rule: Option<Id>)
    requires ReadsBack(setup, show)
    ensures DelegatedGroup(setup, Escalate(show, approval, group, name, rule)) == Some(group)
  {
    PatchFields(show, group, name, rule);
    MergedField(approval.evidence, EscalationPatch(show, group, name, rule), "approver_group_id");
    assert setup.parse(Trim(show(group))) == Some(group);
  }

  /** An escalation overwrites three fields of the evidence and keeps the rest; what is no object is kept as details. */
  lemma EscalationKeepsOtherEvidence(show: ShowId, approval: Approval, group: Id, name: string, rule: Option<Id>, key: string)
    ensures key in EscalationPatch(show, group, name, rule)
       <==> key == "approver_group_id" || key == "approver_group_name" || key == "escalation"
    ensures key !in EscalationPatch(show, group, name, rule) ==>
              Get(Escalate(show, approval, group, name, rule).evidence, key)
              == if approval.evidence.Obj? then Get(approval.evidence, key)
                 else if key == "details" then Some(approval.evidence) else None
  {
  }

  /** An escalated approval is notified to the group it was handed to. */
  lemma EscalationRoutesToGroup(world: World, show: ShowId, approval: Approval, group: Id, name: string, rule: Option<Id>)
    requires ReadsBack(world.setup, show) && group in world.groups
    ensures Targets(world, Escalate(show, approval, group, name, rule)) == world.groups[group].subjects
  {
    EscalationRecordsGroup(world.setup, show, approval, group, name, rule);
  }

  lemma {:induction false} FindRuleFinds(rules: seq<Rule>, rule: Rule)
    requires rule in rules
    requires forall r, q :: r in rules && q in rules && r.id == q.id ==> r == q
    ensures FindRule(rules, rule.id) == Some(rule)
  {
    if rules[0].id == rule.id {
      assert rules[0] in rules;
    } else {
      assert forall r :: r in rules[1..] ==> r in rules;
      FindRuleFinds(rules[1..], rule);
    }
  }

  // ----- due runs -----

  /** The surroundings of a due run or a request: the moment, the rules, the groups and channels, and the network. */
  datatype Surroundings = Surroundings(
    now: int,
    world: World,
    rules: seq<Rule>,
    show: ShowId,
    networks: Id -> Network)

  /** What becomes of an approval whose expiry is due: the store may find it decided meanwhile, or fail. */
  datatype ExpiryAnswer = NowExpired | AlreadyDecided | StoreFailed

  datatype Turn =
    | Expiry(answer: ExpiryAnswer)
    | NoRuleDue
    | GroupMissing
    | GroupInactive
    | Escalated(rule: Rule, updated: Approval)

  predicate PastExpiry(approval: Approval, now: int) {
    approval.status == "expired"
    || (approval.status == "pending" && approval.expiresAt.Some? && approval.expiresAt.value <= now)
  }

  function HandOn(around: Surroundings, approval: Approval, group: Id, rule: Option<Id>): Approval
    requires group in around.world.groups
  {
    Escalate(around.show, approval, group, around.world.groups[group].name, rule)
  }

  function TurnFor(around: Surroundings, approval: Approval, answer: ExpiryAnswer): Turn {
    if PastExpiry(approval, around.now) then Expiry(answer)
    else
      match NextRule(around.world.setup, around.rules, approval, around.now)
      case None => NoRuleDue
      case Some(rule) =>
        if rule.group !in around.world.groups then GroupMissing
        else if around.world.groups[rule.group].status != "active" then GroupInactive
        else Escalated(rule, HandOn(around, approval, rule.group, Some(rule.id)))
  }

  datatype Counts = Counts(expired: nat, escalated: nat, skipped: nat, deliveries: nat, aborted: bool)

  /** How an approval came to be escalated: by a rule whose time had come, or by hand, with or without a rule. */
  datatype Mark = ByRule(order: int) | ByHand(chosen: Option<int>)

  /** The order an escalation leaves on record. */
  function Recorded(mark: Mark): Option<int> {
    match mark
    case ByRule(order) => Some(order)
    case ByHand(chosen) => chosen
  }

  /** `log` is history: each escalation's approval and how it came about. */
  datatype Ladder = Ladder(approvals: map<Id, Approval>, log: seq<(Id, Mark)>)

  function Count(c: Counts, turn: Turn, sent: bool): Counts {
    if c.aborted then c
    else
      match turn
      case Expiry(NowExpired) => c.(expired := c.expired + 1)
      case Expiry(AlreadyDecided) => c.(skipped := c.skipped + 1)
      case Expiry(StoreFailed) => c.(aborted := true)
      case NoRuleDue => c.(skipped := c.skipped + 1)
      case GroupMissing => c.(aborted := true)
      case GroupInactive => c.(skipped := c.skipped + 1)
      case Escalated(_, _) =>
        if sent then c.(escalated := c.escalated + 1, deliveries := c.deliveries + 1)
        else c.(escalated := c.escalated + 1, aborted := true)
  }

  function Apply(l: Ladder, id: Id, turn: Turn): Ladder
    requires id in l.approvals
  {
    match turn
    case Expiry(NowExpired) => l.(approvals := l.approvals[id := l.approvals[id].(status := "expired")])
    case Escalated(rule, updated) => Ladder(l.approvals[id := updated], l.log + [(id, ByRule(rule.orderIndex))])
    case _ => l
  }

  predicate Notified(around: Surroundings, approval: Approval) {
    Deliver(around.world, approval, around.networks(approval.id)).Ok?
  }

  method Notify(around: Surroundings, approval: Approval) returns (sent: bool)
    ensures sent == Notified(around, approval)
  {
    var delivery := DeliverNotification(around.world, approval, around.networks(approval.id));
    sent := delivery.Ok?;
  }

  method ChooseTurn(around: Surroundings, approval: Approval, answer: ExpiryAnswer) returns (turn: Turn)
    ensures turn == TurnFor(around, approval, answer)
  {
    if PastExpiry(approval, around.now) {
      return Expiry(answer);
    }
    var rule := NextRule(around.world.setup, around.rules, approval, around.now);
    if rule.None? {
      return NoRuleDue;
    }
    if rule.value.group !in around.world.groups {
      return GroupMissing;
    }
    if around.world.groups[rule.value.group].status != "active" {
      return GroupInactive;
    }
    return Escalated(rule.value, HandOn(around, approval, rule.value.group, Some(rule.value.id)));
  }

  /**
    Expired and escalated are the numbers of those turns; in a finished run the three
    counts add up to the turns, and every escalation was delivered.
   */
  ghost predicate CountsTurns(c: Counts, turns: seq<Turn>) {
    && c.escalated == |Filter((t: Turn) => t.Escalated?, turns)|
    && c.expired == |Filter(t => t == Expiry(NowExpired), turns)|
    && (!c.aborted ==> c.expired + c.escalated + c.skipped == |turns| && c.deliveries == c.escalated)
  }

  lemma CountsGrow(c: Counts, turns: seq<Turn>, turn: Turn, sent: bool)
    requires CountsTurns(c, turns) && !c.aborted
    ensures CountsTurns(Count(c, turn, sent), turns + [turn])
    ensures Count(c, turn, sent).escalated == c.escalated + if turn.Escalated? then 1 else 0
  {
    FilterAppends((t: Turn) => t.Escalated?, turns, [turn]);
    FilterAppends(t => t == Expiry(NowExpired), turns, [turn]);
  }

  /** The list a run is given: approvals as they stand in the store, each once. */
  ghost predicate Listing(listed: seq<Approval>, approvals: map<Id, Approval>) {
    && (forall i :: 0 <= i < |listed| ==> listed[i].id in approvals && approvals[listed[i].id] == listed[i])
    && forall i, j :: 0 <= i < j < |listed| ==> listed[i].id != listed[j].id
  }

  class Escalator {
    var approvals: map<Id, Approval>
    ghost var log: seq<(Id, Mark)>

    ghost function View(): Ladder
      reads this
    {
      Ladder(approvals, log)
    }

    /** One listed approval's turn, with whether its notification went out. */
    method TakeTurn(around: Surroundings, approval: Approval, answer: ExpiryAnswer) returns (turn: Turn, sent: bool)
      requires approval.id in approvals && approvals[approval.id] == approval
      modifies this
      ensures turn == TurnFor(around, approval, answer)
      ensures View() == Apply(old(View()), approval.id, turn)
      ensures turn.Escalated? ==> sent == Notified(around, turn.updated)
    {
      turn := ChooseTurn(around, approval, answer);
      sent := false;
      match turn {
        case Expiry(NowExpired) => approvals := approvals[approval.id := approvals[approval.id].(status := "expired")];
        case Escalated(rule, updated) =>
          approvals := approvals[approval.id := updated];
          log := log + [(approval.id, ByRule(rule.orderIndex))];
          sent := Notify(around, updated);
        case _ =>
      }
    }

    /** The turn of the next listed approval, which still stands in the store as it was listed. */
    method TakeNext(around: Surroundings, listed: seq<Approval>, answers: Id -> ExpiryAnswer, ghost start: Ladder, ghost turns: seq<Turn>, i: nat)
      returns (turn: Turn, sent: bool)
      requires i < |listed| && |turns| == i && Ran(around, start, listed, turns, answers, View())
      modifies this
      ensures Ran(around, start, listed, turns + [turn], answers, View())
      ensures |log| == |old(log)| + if turn.Escalated? then 1 else 0
    {
      ghost var before := View();
      OpenRan(around, start, listed, turns, answers, before);
      ListingStands(start, listed, turns, i);
      turn, sent := TakeTurn(around, listed[i], answers(listed[i].id));
      LaddersGrow(start, listed, turns, before, turn);
      TurnsStand(around, listed, turns, turn, answers);
      CloseRan(around, start, listed, turns + [turn], answers, View());
    }

    /** The run over the approvals listed at its start; a failed store call or delivery ends it without a report. */
    method ExecuteDueRun(around: Surroundings, listed: seq<Approval>, answers: Id -> ExpiryAnswer) returns (c: Counts, ghost turns: seq<Turn>)
      requires Listing(listed, approvals)
      modifies this
      ensures |turns| <= |listed| && (!c.aborted ==> |turns| == |listed|)
      ensures Ran(around, old(View()), listed, turns, answers, View())
      ensures CountsTurns(c, turns) && c.escalated == |log| - |old(log)|
    {
      c := Counts(0, 0, 0, 0, false);
      turns := [];
      ghost var start := View();
      RanNothing(around, start, listed, answers);
      var i := 0;
      while i < |listed| && !c.aborted
        invariant 0 <= i <= |listed| && |turns| == i
        invariant Ran(around, start, listed, turns, answers, View())
        invariant CountsTurns(c, turns) && c.escalated == |log| - |start.log|
      {
        var turn, sent := TakeNext(around, listed, answers, start, turns, i);
        CountsGrow(c, turns, turn, sent);
        turns := turns + [turn];
        c := Count(c, turn, sent);
        i := i + 1;
      }
    }

    /** A request to escalate one approval, to a group of the caller's choice or else by the level's first rule. */
    method EscalateByHand(around: Surroundings, id: Id, group: Option<Id>, answer: ExpiryAnswer) returns (r: Result<Approval>)
      modifies this
      ensures id !in old(approvals) ==> r.Err? && View() == old(View())
      ensures id in old(approvals) ==>
                var asked := HandTurn(around, old(approvals)[id], group, answer);
                && (r.Ok? <==> asked.HandedOn?) && (r.Ok? ==> r.value == asked.updated)
                && View() == ApplyHand(old(View()), id, asked)
    {
      if id !in approvals {
        return Err("approval not found");
      }
      var approval := approvals[id];
      if approval.status != "pending" {
        return Err("only pending approvals can be escalated");
      }
      if PastExpiry(approval, around.now) {
        if answer.NowExpired? {
          approvals := approvals[id := approval.(status := "expired")];
        }
        return Err("approval expired");
      }
      var rule := if group.Some? then None else FirstActive(around.rules, approval.riskLevel);
      if group.None? && rule.None? {
        return Err("no active escalation rule for approval risk");
      }
      var target := if group.Some? then group.value else rule.value.group;
      if target !in around.world.groups {
        return Err("approval group not found");
      }
      if around.world.groups[target].status != "active" {
        return Err("approval group is not active");
      }
      var updated := HandOn(around, approval, target, if rule.Some? then Some(rule.value.id) else None);
      approvals := approvals[id := updated];
      log := log + [(id, HandMark(rule))];
      return Ok(updated);
    }
  }

  // ----- escalating by hand -----

  datatype Asked =
    | NotPending
    | PastDue(answer: ExpiryAnswer)
    | NoRule
    | NoGroup
    | HandedOn(rule: Option<Rule>, group: Id, updated: Approval)

  function FirstActive(rules: seq<Rule>, riskLevel: string): Option<Rule> {
    if rules == [] then None
    else if rules[0].status == "active" && rules[0].riskLevel == riskLevel then Some(rules[0])
    else FirstActive(rules[1..], riskLevel)
  }

  lemma {:induction false} FirstActiveIsActive(rules: seq<Rule>, riskLevel: string)
    ensures var r := FirstActive(rules, riskLevel);
            r.Some? ==> r.value in rules && r.value.status == "active" && r.value.riskLevel == riskLevel
  {
    if rules != [] && !(rules[0].status == "active" && rules[0].riskLevel == riskLevel) {
      FirstActiveIsActive(rules[1..], riskLevel);
    }
  }

  function HandTo(around: Surroundings, approval: Approval, group: Id, rule: Option<Rule>): Asked {
    if group !in around.world.groups || around.world.groups[group].status != "active" then NoGroup
    else HandedOn(rule, group, HandOn(around, approval, group, if rule.Some? then Some(rule.value.id) else None))
  }

  function HandTurn(around: Surroundings, approval: Approval, group: Option<Id>, answer: ExpiryAnswer): Asked {
    if approval.status != "pending" then NotPending
    else if PastExpiry(approval, around.now) then PastDue(answer)
    else if group.Some? then HandTo(around, approval, group.value, None)
    else
      match FirstActive(around.rules, approval.riskLevel)
      case None => NoRule
      case Some(rule) => HandTo(around, approval, rule.group, Some(rule))
  }

  function HandMark(rule: Option<Rule>): Mark {
    ByHand(if rule.Some? then Some(rule.value.orderIndex) else None)
  }

  function ApplyHand(l: Ladder, id: Id, asked: Asked): Ladder
    requires id in l.approvals
  {
    match asked
    case PastDue(NowExpired) => l.(approvals := l.approvals[id := l.approvals[id].(status := "expired")])
    case HandedOn(rule, _, updated) =>
      Ladder(l.approvals[id := updated], l.log + [(id, HandMark(rule))])
    case _ => l
  }

  /** The ladder after the first turns of a list. */
  function After(l: Ladder, listed: seq<Approval>, turns: seq<Turn>): Ladder
    requires |turns| <= |listed|
    requires forall i :: 0 <= i < |listed| ==> listed[i].id in l.approvals
    ensures After(l, listed, turns).approvals.Keys == l.approvals.Keys
  {
    if turns == [] then l
    else Apply(After(l, listed, turns[..|turns| - 1]), listed[|turns| - 1].id, turns[|turns| - 1])
  }

  /** A run's own turns leave alone what is listed further on. */
  lemma {:induction false} ListingStands(l: Ladder, listed: seq<Approval>, turns: seq<Turn>, k: nat)
    requires Listing(listed, l.approvals) && |turns| <= k < |listed|
    ensures After(l, listed, turns).approvals[listed[k].id] == listed[k]
  {
    if turns != [] {
      ListingStands(l, listed, turns[..|turns| - 1], k);
      assert listed[|turns| - 1].id != listed[k].id;
    }
  }

  ghost predicate Ladders(l: Ladder, listed: seq<Approval>, turns: seq<Turn>, later: Ladder) {
    |turns| <= |listed| && Listing(listed, l.approvals) && After(l, listed, turns) == later
  }

  lemma LaddersGrow(l: Ladder, listed: seq<Approval>, turns: seq<Turn>, later: Ladder, turn: Turn)
    requires Ladders(l, listed, turns, later) && |turns| < |listed| && listed[|turns|].id in later.approvals
    ensures Ladders(l, listed, turns + [turn], Apply(later, listed[|turns|].id, turn))
  {
    assert (turns + [turn])[..|turns|] == turns;
  }

  /** The k-th turn is the one due to the k-th approval as it was listed. */
  ghost predicate TookTurn(around: Surroundings, listed: seq<Approval>, turns: seq<Turn>, k: nat, answers: Id -> ExpiryAnswer) {
    k < |turns| <= |listed| && turns[k] == TurnFor(around, listed[k], answers(listed[k].id))
  }

  ghost predicate AllTook(around: Surroundings, listed: seq<Approval>, turns: seq<Turn>, answers: Id -> ExpiryAnswer) {
    forall k :: 0 <= k < |turns| ==> TookTurn(around, listed, turns, k, answers)
  }

  /** Both halves of what a run's turns amount to, opened only where a proof needs them. */
  datatype Half = States | Turns

  ghost predicate RanHalf(around: Surroundings, l: Ladder, listed: seq<Approval>, turns: seq<Turn>, answers: Id -> ExpiryAnswer,
                          later: Ladder, half: Half) {
    match half
    case States => Ladders(l, listed, turns, later)
    case Turns => AllTook(around, listed, turns, answers)
  }

  /** The turns were the ones due, and led from one ladder to the other. */
  ghost predicate Ran(around: Surroundings, l: Ladder, listed: seq<Approval>, turns: seq<Turn>, answers: Id -> ExpiryAnswer, later: Ladder) {
    forall half {:trigger RanHalf(around, l, listed, turns, answers, later, half)} ::
      RanHalf(around, l, listed, turns, answers, later, half)
  }

  lemma OpenRan(around: Surroundings, l: Ladder, listed: seq<Approval>, turns: seq<Turn>, answers: Id -> ExpiryAnswer, later: Ladder)
    requires Ran(around, l, listed, turns, answers, later)
    ensures Ladders(l, listed, turns, later) && AllTook(around, listed, turns, answers)
  {
    assert RanHalf(around, l, listed, turns, answers, later, States);
    assert RanHalf(around, l, listed, turns, answers, later, Turns);
  }

  lemma CloseRan(around: Surroundings, l: Ladder, listed: seq<Approval>, turns: seq<Turn>, answers: Id -> ExpiryAnswer, later: Ladder)
    requires Ladders(l, listed, turns, later) && AllTook(around, listed, turns, answers)
    ensures Ran(around, l, listed, turns, answers, later)
  {
  }

  lemma RanNothing(around: Surroundings, l: Ladder, listed: seq<Approval>, answers: Id -> ExpiryAnswer)
    requires Listing(listed, l.approvals)
    ensures Ran(around, l, listed, [], answers, l)
  {
    CloseRan(around, l, listed, [], answers, l);
  }

  lemma TurnsStand(around: Surroundings, listed: seq<Approval>, turns: seq<Turn>, turn: Turn, answers: Id -> ExpiryAnswer)
    requires |turns| < |listed| && turn == TurnFor(around, listed[|turns|], answers(listed[|turns|].id))
    requires AllTook(around, listed, turns, answers)
    ensures AllTook(around, listed, turns + [turn], answers)
  {
    forall k | 0 <= k < |turns + [turn]|
      ensures TookTurn(around, listed, turns + [turn], k, answers)
    {
      if k < |turns| {
        assert TookTurn(around, listed, turns, k, answers);
      }
    }
  }

  // ----- climbing the ladder -----

  /** Ids are read back as written, and each rule is found by its id. */
  ghost predicate Fixed(setup: Setup, rules: seq<Rule>, show: ShowId) {
    ReadsBack(setup, show) && forall r, q :: r in rules && q in rules && r.id == q.id ==> r == q
  }

  /** An approval's escalations so far. */
  function MarksOf(log: seq<(Id, Mark)>, id: Id): seq<Mark> {
    if log == [] then []
    else
      var before := MarksOf(log[..|log| - 1], id);
      if log[|log| - 1].0 == id then before + [log[|log| - 1].1] else before
  }

  ghost predicate Rung(rules: seq<Rule>, riskLevel: string, order: int) {
    exists r :: r in rules && r.status == "active" && r.riskLevel == riskLevel && r.orderIndex == order
  }

  ghost predicate OnLadder(rules: seq<Rule>, riskLevel: string, mark: Mark) {
    Recorded(mark).Some? ==> Rung(rules, riskLevel, Recorded(mark).value)
  }

  /** An escalation by a rule goes above what the one before it left on record. */
  predicate StepsUp(before: Mark, mark: Mark) {
    mark.ByRule? && Recorded(before).Some? ==> Recorded(before).value < mark.order
  }

  /** Rules step up, orders belong to active rules of the level, and the last mark is the one on record. */
  ghost predicate Climbed(setup: Setup, rules: seq<Rule>, approval: Approval, marks: seq<Mark>) {
    && (forall i :: 0 < i < |marks| ==> StepsUp(marks[i - 1], marks[i]))
    && (forall i :: 0 <= i < |marks| ==> OnLadder(rules, approval.riskLevel, marks[i]))
    && (marks != [] ==> PreviousOrder(setup, rules, approval) == Recorded(marks[|marks| - 1]))
  }

  ghost predicate AllClimbed(setup: Setup, rules: seq<Rule>, l: Ladder) {
    forall id: Id :: ClimbedAt(setup, rules, l, id)
  }

  ghost predicate ClimbedAt(setup: Setup, rules: seq<Rule>, l: Ladder, id: Id) {
    if id in l.approvals then Climbed(setup, rules, l.approvals[id], MarksOf(l.log, id)) else MarksOf(l.log, id) == []
  }

  lemma MarksAfter(log: seq<(Id, Mark)>, entry: (Id, Mark), id: Id)
    ensures MarksOf(log + [entry], id) == MarksOf(log, id) + if entry.0 == id then [entry.1] else []
  {
    assert (log + [entry])[..|log|] == log;
  }

  lemma EscalatedTurnMeans(around: Surroundings, approval: Approval, answer: ExpiryAnswer)
    requires TurnFor(around, approval, answer).Escalated?
    ensures var turn := TurnFor(around, approval, answer);
            && NextRule(around.world.setup, around.rules, approval, around.now) == Some(turn.rule)
            && turn.rule.group in around.world.groups
            && turn.updated == HandOn(around, approval, turn.rule.group, Some(turn.rule.id))
  {
  }

  lemma RecordedOrder(setup: Setup, rules: seq<Rule>, show: ShowId, approval: Approval, group: Id, name: string, rule: Rule)
    requires Fixed(setup, rules, show) && rule in rules
    ensures PreviousOrder(setup, rules, Escalate(show, approval, group, name, Some(rule.id))) == Some(rule.orderIndex)
  {
    EscalationRecordsRule(setup, show, approval, group, name, Some(rule.id));
    FindRuleFinds(rules, rule);
  }

  /** One more mark that steps up, and is what the approval now has on record. */
  lemma ClimbedGrows(setup: Setup, rules: seq<Rule>, approval: Approval, updated: Approval, marks: seq<Mark>, mark: Mark)
    requires Climbed(setup, rules, approval, marks) && updated.riskLevel == approval.riskLevel
    requires OnLadder(rules, approval.riskLevel, mark)
    requires mark.ByRule? ==> var previous := PreviousOrder(setup, rules, approval); previous.Some? ==> previous.value < mark.order
    requires PreviousOrder(setup, rules, updated) == Recorded(mark)
    ensures Climbed(setup, rules, updated, marks + [mark])
  {
    var all := marks + [mark];
    forall i | 0 < i < |all|
      ensures StepsUp(all[i - 1], all[i])
    {
      if i < |marks| {
        assert StepsUp(marks[i - 1], marks[i]);
      }
    }
    forall i | 0 <= i < |all|
      ensures OnLadder(rules, updated.riskLevel, all[i])
    {
      if i < |marks| {
        assert OnLadder(rules, approval.riskLevel, marks[i]);
      }
    }
  }

  /** An escalation by a rule climbs: its rule is above the last on record, and becomes the last. */
  lemma EscalationClimbs(around: Surroundings, approval: Approval, answer: ExpiryAnswer, marks: seq<Mark>)
    requires Fixed(around.world.setup, around.rules, around.show)
    requires Climbed(around.world.setup, around.rules, approval, marks)
    requires TurnFor(around, approval, answer).Escalated?
    ensures var turn := TurnFor(around, approval, answer);
            Climbed(around.world.setup, around.rules, turn.updated, marks + [ByRule(turn.rule.orderIndex)])
  {
    var setup, turn := around.world.setup, TurnFor(around, approval, answer);
    EscalatedTurnMeans(around, approval, answer);
    NextRuleIsLeastDue(setup, around.rules, approval, around.now);
    RecordedOrder(setup, around.rules, around.show, approval, turn.rule.group, around.world.groups[turn.rule.group].name, turn.rule);
    assert Rung(around.rules, approval.riskLevel, turn.rule.orderIndex);
    ClimbedGrows(setup, around.rules, approval, turn.updated, marks, ByRule(turn.rule.orderIndex));
  }

  lemma HandedOnMeans(around: Surroundings, approval: Approval, group: Option<Id>, answer: ExpiryAnswer)
    requires HandTurn(around, approval, group, answer).HandedOn?
    ensures var asked := HandTurn(around, approval, group, answer);
            && asked.group in around.world.groups
            && asked.updated == HandOn(around, approval, asked.group, if asked.rule.Some? then Some(asked.rule.value.id) else None)
            && asked.rule == (if group.Some? then None else FirstActive(around.rules, approval.riskLevel))
            && (group.None? ==> asked.rule.Some?)
  {
  }

  /**
    Escalating by hand sets the record aside: to nothing where the caller names the group,
    so the ladder starts again from the bottom, and otherwise to the level's first rule.
   */
  lemma ManualEscalationRestartsLadder(around: Surroundings, approval: Approval, group: Option<Id>, answer: ExpiryAnswer)
    requires Fixed(around.world.setup, around.rules, around.show)
    requires HandTurn(around, approval, group, answer).HandedOn?
    ensures var asked := HandTurn(around, approval, group, answer);
            && (asked.rule.Some? <==> group.None?)
            && PreviousOrder(around.world.setup, around.rules, asked.updated)
               == (if group.Some? then None else Some(FirstActive(around.rules, approval.riskLevel).value.orderIndex))
  {
    var setup, asked := around.world.setup, HandTurn(around, approval, group, answer);
    HandedOnMeans(around, approval, group, answer);
    var name := around.world.groups[asked.group].name;
    if asked.rule.Some? {
      FirstActiveIsActive(around.rules, approval.riskLevel);
      RecordedOrder(setup, around.rules, around.show, approval, asked.group, name, asked.rule.value);
    } else {
      EscalationRecordsRule(setup, around.show, approval, asked.group, name, None);
    }
  }

  lemma HandEscalationClimbs(around: Surroundings, approval: Approval, group: Option<Id>, answer: ExpiryAnswer, marks: seq<Mark>)
    requires Fixed(around.world.setup, around.rules, around.show)
    requires Climbed(around.world.setup, around.rules, approval, marks)
    requires HandTurn(around, approval, group, answer).HandedOn?
    ensures var asked := HandTurn(around, approval, group, answer);
            var mark := HandMark(asked.rule);
            Climbed(around.world.setup, around.rules, asked.updated, marks + [mark])
  {
    var asked := HandTurn(around, approval, group, answer);
    var mark := HandMark(asked.rule);
    HandedOnMeans(around, approval, group, answer);
    ManualEscalationRestartsLadder(around, approval, group, answer);
    FirstActiveIsActive(around.rules, approval.riskLevel);
    assert OnLadder(around.rules, approval.riskLevel, mark);
    ClimbedGrows(around.world.setup, around.rules, approval, asked.updated, marks, mark);
  }

  /** One approval's mark is added; all others stand. */
  lemma MarkKeepsClimbed(setup: Setup, rules: seq<Rule>, l: Ladder, id: Id, updated: Approval, mark: Mark)
    requires id in l.approvals && AllClimbed(setup, rules, l)
    requires Climbed(setup, rules, updated, MarksOf(l.log, id) + [mark])
    ensures AllClimbed(setup, rules, Ladder(l.approvals[id := updated], l.log + [(id, mark)]))
  {
    var later := Ladder(l.approvals[id := updated], l.log + [(id, mark)]);
    forall other: Id
      ensures ClimbedAt(setup, rules, later, other)
    {
      MarksAfter(l.log, (id, mark), other);
      if other != id {
        assert MarksOf(later.log, other) == MarksOf(l.log, other);
        assert ClimbedAt(setup, rules, l, other);
      }
    }
  }

  lemma TurnKeepsClimbed(around: Surroundings, l: Ladder, id: Id, answer: ExpiryAnswer)
    requires Fixed(around.world.setup, around.rules, around.show)
    requires id in l.approvals && AllClimbed(around.world.setup, around.rules, l)
    ensures AllClimbed(around.world.setup, around.rules, Apply(l, id, TurnFor(around, l.approvals[id], answer)))
  {
    var setup, turn := around.world.setup, TurnFor(around, l.approvals[id], answer);
    if turn.Escalated? {
      assert ClimbedAt(setup, around.rules, l, id);
      EscalationClimbs(around, l.approvals[id], answer, MarksOf(l.log, id));
      MarkKeepsClimbed(setup, around.rules, l, id, turn.updated, ByRule(turn.rule.orderIndex));
    } else if turn == Expiry(NowExpired) {
      OthersKeepClimbed(setup, around.rules, l, Apply(l, id, turn));
    }
  }

  lemma AskedKeepsClimbed(setup: Setup, rules: seq<Rule>, l: Ladder, id: Id, asked: Asked)
    requires id in l.approvals && AllClimbed(setup, rules, l)
    requires asked.HandedOn? ==> Climbed(setup, rules, asked.updated, MarksOf(l.log, id) + [HandMark(asked.rule)])
    ensures AllClimbed(setup, rules, ApplyHand(l, id, asked))
  {
    if asked.HandedOn? {
      MarkKeepsClimbed(setup, rules, l, id, asked.updated, HandMark(asked.rule));
    } else if asked == PastDue(NowExpired) {
      OthersKeepClimbed(setup, rules, l, ApplyHand(l, id, asked));
    }
  }

  lemma RequestKeepsClimbed(around: Surroundings, l: Ladder, id: Id, group: Option<Id>, answer: ExpiryAnswer)
    requires Fixed(around.world.setup, around.rules, around.show)
    requires id in l.approvals && AllClimbed(around.world.setup, around.rules, l)
    ensures AllClimbed(around.world.setup, around.rules, ApplyHand(l, id, HandTurn(around, l.approvals[id], group, answer)))
  {
    var asked := HandTurn(around, l.approvals[id], group, answer);
    assert ClimbedAt(around.world.setup, around.rules, l, id);
    if asked.HandedOn? {
      HandEscalationClimbs(around, l.approvals[id], group, answer, MarksOf(l.log, id));
    }
    AskedKeepsClimbed(around.world.setup, around.rules, l, id, asked);
  }

  lemma {:induction false} TurnsKeepClimbed(around: Surroundings, l: Ladder, listed: seq<Approval>, turns: seq<Turn>, answers: Id -> ExpiryAnswer)
    requires Fixed(around.world.setup, around.rules, around.show) && AllClimbed(around.world.setup, around.rules, l)
    requires |turns| <= |listed| && Listing(listed, l.approvals)
    requires AllTook(around, listed, turns, answers)
    ensures AllClimbed(around.world.setup, around.rules, After(l, listed, turns))
  {
    if turns != [] {
      var front, k := turns[..|turns| - 1], |turns| - 1;
      forall j | 0 <= j < |front|
        ensures TookTurn(around, listed, front, j, answers)
      {
        assert TookTurn(around, listed, turns, j, answers);
      }
      TurnsKeepClimbed(around, l, listed, front, answers);
      assert TookTurn(around, listed, turns, k, answers);
      ListingStands(l, listed, front, k);
      TurnKeepsClimbed(around, After(l, listed, front), listed[k].id, answers(listed[k].id));
    }
  }

  /** Apart from escalations, approvals are opened, decided and expired. */
  ghost predicate OnlyDecided(l: Ladder, later: Ladder) {
    && later.log == l.log
    && (forall id :: id in l.approvals ==>
          && id in later.approvals
          && later.approvals[id].riskLevel == l.approvals[id].riskLevel
          && Get(later.approvals[id].evidence, "escalation") == Get(l.approvals[id].evidence, "escalation"))
  }

  lemma OthersKeepClimbed(setup: Setup, rules: seq<Rule>, l: Ladder, later: Ladder)
    requires AllClimbed(setup, rules, l) && OnlyDecided(l, later)
    ensures AllClimbed(setup, rules, later)
  {
    forall id: Id
      ensures ClimbedAt(setup, rules, later, id)
    {
      assert ClimbedAt(setup, rules, l, id);
      if id in l.approvals {
        assert Climbed(setup, rules, l.approvals[id], MarksOf(l.log, id));
        assert PreviousRule(setup, later.approvals[id]) == PreviousRule(setup, l.approvals[id]);
      }
    }
  }

  /** What happens to the ladder: a due run, finished or cut short, a request to escalate, or anything else. */
  datatype Event =
    | DueRun(around: Surroundings, listed: seq<Approval>, turns: seq<Turn>, answers: Id -> ExpiryAnswer)
    | Request(around: Surroundings, id: Id, group: Option<Id>, answer: ExpiryAnswer)
    | Decided

  ghost predicate Happens(l: Ladder, event: Event, later: Ladder) {
    match event
    case DueRun(around, listed, turns, answers) => Ran(around, l, listed, turns, answers, later)
    case Request(around, id, group, answer) =>
      id in l.approvals && later == ApplyHand(l, id, HandTurn(around, l.approvals[id], group, answer))
    case Decided => OnlyDecided(l, later)
  }

  /** The rules, and the reading and writing of ids, stay the same. */
  ghost predicate Settled(event: Event, setup: Setup, rules: seq<Rule>, show: ShowId) {
    event.Decided? || (event.around.world.setup == setup && event.around.rules == rules && event.around.show == show)
  }

  ghost predicate History(states: seq<Ladder>, events: seq<Event>, setup: Setup, rules: seq<Rule>, show: ShowId) {
    && |states| == |events| + 1 && states[0] == Ladder(map[], [])
    && forall k :: 0 <= k < |events| ==> Settled(events[k], setup, rules, show) && Happens(states[k], events[k], states[k + 1])
  }

  lemma EventKeepsClimbed(l: Ladder, event: Event, later: Ladder, setup: Setup, rules: seq<Rule>, show: ShowId)
    requires Fixed(setup, rules, show) && AllClimbed(setup, rules, l)
    requires Settled(event, setup, rules, show) && Happens(l, event, later)
    ensures AllClimbed(setup, rules, later)
  {
    match event
    case DueRun(around, listed, turns, answers) =>
      OpenRan(around, l, listed, turns, answers, later);
      TurnsKeepClimbed(around, l, listed, turns, answers);
    case Request(around, id, group, answer) => RequestKeepsClimbed(around, l, id, group, answer);
    case Decided => OthersKeepClimbed(setup, rules, l, later);
  }

  lemma {:induction false} HistoryClimbs(states: seq<Ladder>, events: seq<Event>, setup: Setup, rules: seq<Rule>, show: ShowId, n: nat)
    requires History(states, events, setup, rules, show) && Fixed(setup, rules, show) && n <= |events|
    ensures AllClimbed(setup, rules, states[n])
  {
    if n > 0 {
      HistoryClimbs(states, events, setup, rules, show, n - 1);
      assert Happens(states[n - 1], events[n - 1], states[n]);
      EventKeepsClimbed(states[n - 1], events[n - 1], states[n], setup, rules, show);
    }
  }

  /** Everything after `i` and up to `j` came about by rules. */
  predicate Stretch(marks: seq<Mark>, i: int, j: nat)
    requires j <= |marks|
  {
    forall k :: i <= k < j && 0 <= k ==> marks[k].ByRule?
  }

  lemma {:induction false} StretchRises(marks: seq<Mark>, i: nat, j: nat)
    requires i < j < |marks| && forall k :: 0 < k < |marks| ==> StepsUp(marks[k - 1], marks[k])
    requires Recorded(marks[i]).Some? && Stretch(marks, i + 1, j + 1)
    ensures marks[j].ByRule? && Recorded(marks[i]).value < marks[j].order
    decreases j
  {
    assert StepsUp(marks[j - 1], marks[j]);
    if i < j - 1 {
      StretchRises(marks, i, j - 1);
    }
  }

  /**
    Over any history, an approval's orders rise strictly from one escalation by hand to the
    next, from what that escalation left on record, and each stretch is no longer than its
    level has distinct orders among the active rules.
   */
  lemma EscalationsClimbAndAreBounded(states: seq<Ladder>, events: seq<Event>, setup: Setup, rules: seq<Rule>, show: ShowId, n: nat, id: Id)
    requires History(states, events, setup, rules, show) && Fixed(setup, rules, show)
    requires n <= |events| && id in states[n].approvals
    ensures var marks := MarksOf(states[n].log, id);
            && (forall i: nat, j: nat :: i < j < |marks| && Recorded(marks[i]).Some? && Stretch(marks, i + 1, j + 1) ==>
                  marks[j].ByRule? && Recorded(marks[i]).value < marks[j].order)
            && (forall i: nat, j: nat :: i <= j <= |marks| && Stretch(marks, i, j) ==>
                  j - i <= |RungOrders(rules, states[n].approvals[id].riskLevel)|)
  {
    HistoryClimbs(states, events, setup, rules, show, n);
    var marks, level := MarksOf(states[n].log, id), states[n].approvals[id].riskLevel;
    assert ClimbedAt(setup, rules, states[n], id);
    assert Climbed(setup, rules, states[n].approvals[id], marks);
    forall i: nat, j: nat | i < j < |marks| && Recorded(marks[i]).Some? && Stretch(marks, i + 1, j + 1)
      ensures marks[j].ByRule? && Recorded(marks[i]).value < marks[j].order
    {
      StretchRises(marks, i, j);
    }
    forall i: nat, j: nat | i <= j <= |marks| && Stretch(marks, i, j)
      ensures j - i <= |RungOrders(rules, level)|
    {
      StretchIsBounded(marks, i, j, rules, level);
    }
  }

  lemma StretchIsBounded(marks: seq<Mark>, i: nat, j: nat, rules: seq<Rule>, level: string)
    requires i <= j <= |marks| && Stretch(marks, i, j)
    requires forall k :: 0 < k < |marks| ==> StepsUp(marks[k - 1], marks[k])
    requires forall k :: 0 <= k < |marks| ==> OnLadder(rules, level, marks[k])
    ensures j - i <= |RungOrders(rules, level)|
  {
    var orders := seq(j - i, k requires 0 <= k < j - i => marks[i + k].order);
    forall a, b | 0 <= a < b < |orders|
      ensures orders[a] < orders[b]
    {
      StretchRises(marks, i + a, i + b);
    }
    forall a | 0 <= a < |orders|
      ensures orders[a] in RungOrders(rules, level)
    {
      assert OnLadder(rules, level, marks[i + a]);
    }
    DistinctFit(orders, RungOrders(rules, level));
  }

  function RungOrders(rules: seq<Rule>, riskLevel: string): set<int> {
    set r | r in rules && r.status == "active" && r.riskLevel == riskLevel :: r.orderIndex
  }

  lemma {:induction false} DistinctFit(s: seq<int>, fits: set<int>)
    requires forall i, j :: 0 <= i < j < |s| ==> s[i] < s[j]
    requires forall i :: 0 <= i < |s| ==> s[i] in fits
    ensures |s| <= |fits|
  {
    if s != [] {
      var front, last := s[..|s| - 1], s[|s| - 1];
      DistinctFit(front, fits - {last});
    }
  }

  // ----- across escalations by hand -----

  predicate RisesFrom(marks: seq<Mark>, i: nat, j: nat)
    requires i < j < |marks|
  {
    marks[i].ByRule? && marks[j].ByRule? ==> marks[i].order < marks[j].order
  }

  /** The two are rules with nothing but escalations by hand, at least one, between them. */
  predicate AcrossHands(marks: seq<Mark>, i: nat, j: nat)
    requires i < j < |marks|
  {
    i + 1 < j && marks[i].ByRule? && marks[j].ByRule? && forall k :: i < k < j ==> marks[k].ByHand?
  }

  /**
    The orders of all an approval's rules rise exactly if, wherever escalations by hand come
    between two of them, the next rule's order exceeds the one that was set aside.
   */
  lemma RisesThroughoutIff(states: seq<Ladder>, events: seq<Event>, setup: Setup, rules: seq<Rule>, show: ShowId, n: nat, id: Id)
    requires History(states, events, setup, rules, show) && Fixed(setup, rules, show) && n <= |events|
    ensures var marks := MarksOf(states[n].log, id);
            (forall i: nat, j: nat :: i < j < |marks| ==> RisesFrom(marks, i, j))
            <==> forall i: nat, j: nat :: i < j < |marks| && AcrossHands(marks, i, j) ==> marks[i].order < marks[j].order
  {
    HistoryClimbs(states, events, setup, rules, show, n);
    var marks := MarksOf(states[n].log, id);
    assert ClimbedAt(setup, rules, states[n], id);
    if forall i: nat, j: nat :: i < j < |marks| ==> RisesFrom(marks, i, j) {
      forall i: nat, j: nat | i < j < |marks| && AcrossHands(marks, i, j)
        ensures marks[i].order < marks[j].order
      {
        assert RisesFrom(marks, i, j);
      }
    }
    if forall i: nat, j: nat :: i < j < |marks| && AcrossHands(marks, i, j) ==> marks[i].order < marks[j].order {
      forall i: nat, j: nat | i < j < |marks|
        ensures RisesFrom(marks, i, j)
      {
        RisesBetween(marks, i, j);
      }
    }
  }

  lemma {:induction false} RisesBetween(marks: seq<Mark>, i: nat, j: nat)
    requires i < j < |marks| && forall k :: 0 < k < |marks| ==> StepsUp(marks[k - 1], marks[k])
    requires forall a: nat, b: nat :: a < b < |marks| && AcrossHands(marks, a, b) ==> marks[a].order < marks[b].order
    ensures RisesFrom(marks, i, j)
    decreases j - i
  {
    if marks[i].ByRule? && marks[j].ByRule? {
      if k :| i < k < j && marks[k].ByRule? {
        RisesBetween(marks, i, k);
        RisesBetween(marks, k, j);
      } else if i + 1 == j {
        assert StepsUp(marks[j - 1], marks[j]);
      } else {
        assert AcrossHands(marks, i, j);
      }
    }
  }

  // ----- a ladder climbed twice -----

  /** Ids written as strokes can be read back. */
  function Strokes(id: Id): string {
    seq(id + 1, i => '|')
  }

  function StrokesSetup(): Setup {
    Setup(None, (name: string) => None, (text: string) => if text == "" then None else Some(|text| - 1))
  }

  lemma StrokesReadBack()
    ensures ReadsBack(StrokesSetup(), Strokes)
  {
    forall id: Id
      ensures StrokesSetup().parse(Strokes(id)) == Some(id) && Trim(Strokes(id)) == Strokes(id)
    {
      TrimLeavesTrimmed(Strokes(id));
    }
  }

  const ONLY := Rule(0, "active", "high", 1, 0, 0, 0)
  const OPENED := Approval(0, "pending", "high", 0, None, EMPTY_OBJECT)

  /** One group, one rule for the level, ten seconds after the approval was opened. */
  function OneRule(): Surroundings {
    Surroundings(10, World(map[0 := Group("on call", "active", [])], [], StrokesSetup()), [ONLY], Strokes,
                 (id: Id) => (channel: nat, attempt: nat) => true)
  }

  function Always(): Id -> ExpiryAnswer {
    (id: Id) => NowExpired
  }

  predicate StillOpen(a: Approval) {
    a.id == 0 && a.status == "pending" && a.riskLevel == "high" && a.createdAt == 0 && a.expiresAt == None
  }

  /** With nothing on record the only rule is due. */
  lemma OnlyRuleIsDue(a: Approval, answer: ExpiryAnswer)
    requires StillOpen(a) && PreviousOrder(StrokesSetup(), [ONLY], a) == None
    ensures TurnFor(OneRule(), a, answer) == Escalated(ONLY, HandOn(OneRule(), a, 0, Some(0)))
  {
    var age := AgeSeconds(a, 10);
    AgeIsWaitIff(a, 10);
    assert Due(ONLY, a, None, age);
    NextRuleIsLeastDue(StrokesSetup(), [ONLY], a, 10);
    assert ONLY in [ONLY];
    assert NextRule(StrokesSetup(), [ONLY], a, 10) == Some(ONLY);
    assert "pending"[0] != "expired"[0];
  }

  /** A due run over the one approval, when its turn is an escalation. */
  lemma OneTurnRun(around: Surroundings, a: Approval, log: seq<(Id, Mark)>, rule: Rule, updated: Approval, answers: Id -> ExpiryAnswer)
    requires TurnFor(around, a, answers(a.id)) == Escalated(rule, updated)
    ensures Happens(Ladder(map[a.id := a], log), DueRun(around, [a], [Escalated(rule, updated)], answers),
                    Ladder(map[a.id := updated], log + [(a.id, ByRule(rule.orderIndex))]))
  {
    var l, turns := Ladder(map[a.id := a], log), [Escalated(rule, updated)];
    var later := Ladder(map[a.id := updated], log + [(a.id, ByRule(rule.orderIndex))]);
    assert After(l, [a], []) == l && turns[..0] == [];
    assert Apply(l, a.id, turns[0]) == later;
    assert TookTurn(around, [a], turns, 0, answers);
    CloseRan(around, l, [a], turns, answers, later);
  }

  lemma OneRequest(around: Surroundings, a: Approval, log: seq<(Id, Mark)>, group: Id)
    requires group in around.world.groups && around.world.groups[group].status == "active"
    requires a.status == "pending" && !PastExpiry(a, around.now)
    ensures Happens(Ladder(map[a.id := a], log), Request(around, a.id, Some(group), NowExpired),
                    Ladder(map[a.id := HandOn(around, a, group, None)], log + [(a.id, ByHand(None))]))
  {
  }

  ghost predicate Follows(l: Ladder, event: Event, later: Ladder) {
    Settled(event, StrokesSetup(), [ONLY], Strokes) && Happens(l, event, later)
  }

  lemma RuleStage(a: Approval, log: seq<(Id, Mark)>) returns (event: Event, later: Approval)
    requires StillOpen(a) && PreviousOrder(StrokesSetup(), [ONLY], a) == None
    ensures Follows(Ladder(map[0 := a], log), event, Ladder(map[0 := later], log + [(0, ByRule(1))])) && StillOpen(later)
  {
    OnlyRuleIsDue(a, NowExpired);
    later := HandOn(OneRule(), a, 0, Some(0));
    event := DueRun(OneRule(), [a], [Escalated(ONLY, later)], Always());
    OneTurnRun(OneRule(), a, log, ONLY, later, Always());
  }

  lemma HandStage(a: Approval, log: seq<(Id, Mark)>) returns (event: Event, later: Approval)
    requires StillOpen(a)
    ensures Follows(Ladder(map[0 := a], log), event, Ladder(map[0 := later], log + [(0, ByHand(None))]))
    ensures StillOpen(later) && PreviousOrder(StrokesSetup(), [ONLY], later) == None
  {
    StrokesReadBack();
    assert "pending"[0] != "expired"[0];
    later := HandOn(OneRule(), a, 0, None);
    event := Request(OneRule(), 0, Some(0), NowExpired);
    OneRequest(OneRule(), a, log, 0);
    EscalationRecordsRule(StrokesSetup(), Strokes, a, 0, "on call", None);
  }

  lemma ThreeMarks(id: Id, a: Mark, b: Mark, c: Mark)
    ensures MarksOf([(id, a)] + [(id, b)] + [(id, c)], id) == [a, b, c]
  {
    MarksAfter([], (id, a), id);
    MarksAfter([(id, a)], (id, b), id);
    MarksAfter([(id, a)] + [(id, b)], (id, c), id);
    assert [] + [(id, a)] == [(id, a)];
  }

  /** A rule, then a hand to the same group, and the same rule escalates the approval again. */
  lemma LadderIsClimbedTwice()
    ensures Fixed(StrokesSetup(), [ONLY], Strokes)
    ensures exists states: seq<Ladder>, events: seq<Event> ::
              && History(states, events, StrokesSetup(), [ONLY], Strokes)
              && MarksOf(states[|events|].log, OPENED.id) == [ByRule(1), ByHand(None), ByRule(1)]
  {
    StrokesReadBack();
    var opening := Ladder(map[0 := OPENED], []);
    var run, first := RuleStage(OPENED, []);
    var request, second := HandStage(first, [] + [(0, ByRule(1))]);
    var again, third := RuleStage(second, [] + [(0, ByRule(1))] + [(0, ByHand(None))]);
    var last := Ladder(map[0 := third], [] + [(0, ByRule(1))] + [(0, ByHand(None))] + [(0, ByRule(1))]);
    ThreeMarks(0, ByRule(1), ByHand(None), ByRule(1));
    assert [] + [(0, ByRule(1))] == [(0, ByRule(1))];
    HistoryOfFour(opening, Ladder(map[0 := first], [] + [(0, ByRule(1))]),
                  Ladder(map[0 := second], [] + [(0, ByRule(1))] + [(0, ByHand(None))]), last, Decided, run, request, again);
  }

  lemma HistoryOfFour(a: Ladder, b: Ladder, c: Ladder, d: Ladder, p: Event, q: Event, r: Event, t: Event)
    requires Follows(Ladder(map[], []), p, a) && Follows(a, q, b) && Follows(b, r, c) && Follows(c, t, d)
    ensures exists states: seq<Ladder>, events: seq<Event> ::
              History(states, events, StrokesSetup(), [ONLY], Strokes) && states[|events|].log == d.log
  {
    var states, events := [Ladder(map[], []), a, b, c, d], [p, q, r, t];
    forall k | 0 <= k < 4
      ensures Settled(events[k], StrokesSetup(), [ONLY], Strokes) && Happens(states[k], events[k], states[k + 1])
    {
      assert Follows(states[k], events[k], states[k + 1]);
    }
    assert History(states, events, StrokesSetup(), [ONLY], Strokes);
  }
}
