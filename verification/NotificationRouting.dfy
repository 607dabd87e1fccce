/** Predicting, and making, the delivery of approval notifications. */
module NotificationRouting {
  import opened Wrappers
  import opened Json
  import opened Sequences
  import opened Text

  type Id = nat

  datatype Approval = Approval(
    id: Id,
    status: string,
    riskLevel: string,
    createdAt: int,
    expiresAt: Option<int>,
    evidence: Json)

  datatype Group = Group(name: string, status: string, subjects: seq<string>)

  datatype Policy = Policy(
    status: string,
    channel: string,
    riskFilter: string,
    targetEnv: Option<string>,
    maxAttempts: int)

  /** What the process is configured with: its webhook and its environment variables. */
  datatype Setup = Setup(webhookUrl: Option<string>, variable: string -> Option<string>, parse: string -> Option<Id>)

  datatype World = World(groups: map<Id, Group>, policies: seq<Policy>, setup: Setup)

  function Configured(setup: Setup, name: string): Option<string> {
    match setup.variable(name)
    case None => None
    case Some(text) => if Blank(text) then None else Some(Trim(text))
  }

  function SlackUrl(setup: Setup): Option<string> {
    Configured(setup, "MANDOFORGE_APPROVAL_SLACK_WEBHOOK_URL")
  }

  function EmailUrl(setup: Setup): Option<string> {
    Configured(setup, "MANDOFORGE_APPROVAL_EMAIL_RELAY_URL")
  }

  // ----- targets -----

  /** The first of four places that holds anything at all, whatever it holds. */
  function FirstHeld(evidence: Json, key: string, otherKey: string): Option<Json> {
    var args := Get(evidence, "args");
    if Get(evidence, key).Some? then Get(evidence, key)
    else if Get(evidence, otherKey).Some? then Get(evidence, otherKey)
    else if args.None? then None
    else if Get(args.value, key).Some? then Get(args.value, key)
    else Get(args.value, otherKey)
  }

  function DelegatedSubject(approval: Approval): Option<string> {
    match AsStr(FirstHeld(approval.evidence, "approver_subject", "delegated_approver"))
    case None => None
    case Some(text) => if Blank(text) then None else Some(Trim(text))
  }

  function DelegatedGroup(setup: Setup, approval: Approval): Option<Id> {
    match AsStr(FirstHeld(approval.evidence, "approver_group_id", "delegated_approver_group_id"))
    case None => None
    case Some(text) => setup.parse(Trim(text))
  }

  function GroupOf(world: World, approval: Approval): Option<Group> {
    var id := DelegatedGroup(world.setup, approval);
    if id.Some? && id.value in world.groups then Some(world.groups[id.value]) else None
  }

  function Targets(world: World, approval: Approval): seq<string> {
    if GroupOf(world, approval).Some? then GroupOf(world, approval).value.subjects
    else if DelegatedSubject(approval).Some? then [DelegatedSubject(approval).value]
    else []
  }

  // ----- the prediction -----

  function ActivePolicies(world: World): seq<Policy> {
    Filter((p: Policy) => p.status == "active", world.policies)
  }

  predicate Matches(policy: Policy, approval: Approval) {
    policy.riskFilter == "all" || policy.riskFilter == approval.riskLevel
  }

  /** The summary's test that a policy leads somewhere, from three flags and the environment. */
  predicate HasTarget(setup: Setup, policy: Policy) {
    if policy.targetEnv.Some? then
      setup.variable(policy.targetEnv.value).Some? && !Blank(setup.variable(policy.targetEnv.value).value)
    else if policy.channel == "webhook" then setup.webhookUrl.Some?
    else if policy.channel == "slack" then SlackUrl(setup).Some?
    else if policy.channel == "email_relay" then EmailUrl(setup).Some?
    else false
  }

  predicate ChannelReady(world: World, approval: Approval) {
    var active := ActivePolicies(world);
    if active == [] then world.setup.webhookUrl.Some? || SlackUrl(world.setup).Some? || EmailUrl(world.setup).Some?
    else exists i :: 0 <= i < |active| && Matches(active[i], approval) && HasTarget(world.setup, active[i])
  }

  predicate Routable(world: World, approval: Approval) {
    ChannelReady(world, approval) && Targets(world, approval) != []
  }

  function One(b: bool): nat {
    if b then 1 else 0
  }

  function ChannelCount(world: World): nat {
    var active := ActivePolicies(world);
    if active == [] then
      One(world.setup.webhookUrl.Some?) + One(SlackUrl(world.setup).Some?) + One(EmailUrl(world.setup).Some?)
    else |Filter(p => HasTarget(world.setup, p), active)|
  }

  datatype Attention = Attention(kind: string, critical: bool, approval: Option<Id>)

  datatype Summary = Summary(
    status: string,
    channelCount: nat,
    pending: nat,
    delegated: nat,
    grouped: nat,
    routable: nat,
    unroutable: nat,
    attention: seq<Attention>)

  function Pending(approvals: seq<Approval>): seq<Approval> {
    Filter((a: Approval) => a.status == "pending", approvals)
  }

  /** What the summary raises before it looks at any approval. */
  function GeneralAttention(world: World, ruleCount: nat): seq<Attention> {
    (if ActivePolicies(world) == [] then [Attention("missing_persisted_channel_policy", false, None)] else [])
    + (if ChannelCount(world) == 0 then [Attention("missing_channel", true, None)] else [])
    + (if world.groups == map[] then [Attention("missing_approval_group", false, None)] else [])
    + (if ruleCount == 0 then [Attention("missing_escalation_rule", false, None)] else [])
  }

  function AttentionFor(world: World, approval: Approval): Attention {
    Attention(if Targets(world, approval) == [] then "missing_target"
              else if ActivePolicies(world) == [] then "missing_channel"
              else "missing_matching_channel_policy", true, Some(approval.id))
  }

  datatype Tally = Tally(delegated: nat, grouped: nat, routable: nat, unroutable: nat, raised: seq<Attention>)

  /** What the summary asks of each approval. */
  datatype Questions = Questions(
    delegated: Approval -> bool,
    grouped: Approval -> bool,
    routable: Approval -> bool,
    raise: Approval -> Attention)

  function QuestionsOf(world: World): Questions {
    Questions(a => DelegatedSubject(a).Some?, a => GroupOf(world, a).Some?, a => Routable(world, a), a => AttentionFor(world, a))
  }

  ghost predicate Tallies(q: Questions, pending: seq<Approval>, t: Tally) {
    && t.delegated == |Filter(q.delegated, pending)| && t.grouped == |Filter(q.grouped, pending)|
    && t.routable == |Filter(q.routable, pending)| && t.routable + t.unroutable == |pending|
    && t.raised == Map(q.raise, Filter(a => !q.routable(a), pending))
  }

  function AddToTally(q: Questions, a: Approval, t: Tally): Tally {
    Tally(t.delegated + One(q.delegated(a)), t.grouped + One(q.grouped(a)),
          t.routable + One(q.routable(a)), t.unroutable + One(!q.routable(a)),
          t.raised + if q.routable(a) then [] else [q.raise(a)])
  }

  lemma TallyGrows(q: Questions, pending: seq<Approval>, i: nat, t: Tally)
    requires i < |pending| && Tallies(q, pending[..i], t)
    ensures Tallies(q, pending[..i + 1], AddToTally(q, pending[i], t))
  {
    FilterGrows(q.delegated, pending, i);
    FilterGrows(q.grouped, pending, i);
    FilterGrows(q.routable, pending, i);
    FilterGrows(a => !q.routable(a), pending, i);
  }

  method TallyPending(q: Questions, pending: seq<Approval>) returns (t: Tally)
    ensures Tallies(q, pending, t)
  {
    var delegated, grouped, routable, unroutable := 0, 0, 0, 0;
    var raised: seq<Attention> := [];
    for i := 0 to |pending|
      invariant Tallies(q, pending[..i], Tally(delegated, grouped, routable, unroutable, raised))
    {
      TallyGrows(q, pending, i, Tally(delegated, grouped, routable, unroutable, raised));
      var approval := pending[i];
      if q.delegated(approval) {
        delegated := delegated + 1;
      }
      if q.grouped(approval) {
        grouped := grouped + 1;
      }
      if q.routable(approval) {
        routable := routable + 1;
      } else {
        unroutable := unroutable + 1;
        raised := raised + [q.raise(approval)];
      }
    }
    assert pending[..|pending|] == pending;
    return Tally(delegated, grouped, routable, unroutable, raised);
  }

  function StatusOf(unroutable: nat, channelCount: nat, attention: seq<Attention>): string {
    if unroutable > 0 || channelCount == 0 then "action_required"
    else if exists i :: 0 <= i < |attention| && !attention[i].critical then "warning"
    else "ready"
  }

  lemma StatusMeans(unroutable: nat, channelCount: nat, attention: seq<Attention>)
    ensures StatusOf(unroutable, channelCount, attention) == "action_required" <==> unroutable > 0 || channelCount == 0
    ensures StatusOf(unroutable, channelCount, attention) == "ready"
       <==> unroutable == 0 && channelCount > 0 && forall i :: 0 <= i < |attention| ==> attention[i].critical
  {
    assert |"action_required"| == 15 && |"warning"| == 7 && |"ready"| == 5;
  }

  method Summarise(world: World, approvals: seq<Approval>, ruleCount: nat) returns (r: Summary)
    ensures r.channelCount == ChannelCount(world) && r.pending == |Pending(approvals)|
    ensures exists t :: Tallies(QuestionsOf(world), Pending(approvals), t)
                        && r.delegated == t.delegated && r.grouped == t.grouped
                        && r.routable == t.routable && r.unroutable == t.unroutable
                        && r.attention == GeneralAttention(world, ruleCount) + t.raised
    ensures r.status == StatusOf(r.unroutable, r.channelCount, r.attention)
  {
    var pending := Pending(approvals);
    var channelCount := ChannelCount(world);
    var t := TallyPending(QuestionsOf(world), pending);
    var attention := GeneralAttention(world, ruleCount) + t.raised;
    r := Summary(StatusOf(t.unroutable, channelCount, attention), channelCount, |pending|,
                 t.delegated, t.grouped, t.routable, t.unroutable, attention);
  }

  /** The summary is ready exactly when there is nothing to attend to. */
  lemma ReadyIffNothingToAttendTo(world: World, pending: seq<Approval>, ruleCount: nat, t: Tally)
    requires Tallies(QuestionsOf(world), pending, t)
    ensures var attention := GeneralAttention(world, ruleCount) + t.raised;
            StatusOf(t.unroutable, ChannelCount(world), attention) == "ready" <==> attention == []
  {
    var general := GeneralAttention(world, ruleCount);
    var attention := general + t.raised;
    StatusMeans(t.unroutable, ChannelCount(world), attention);
    var q := QuestionsOf(world);
    FilterSplits(q.routable, a => !q.routable(a), pending);
    assert |t.raised| == t.unroutable;
    if t.unroutable == 0 && ChannelCount(world) > 0 && attention != [] {
      assert attention[0] == general[0];
      assert !attention[0].critical;
    }
    if attention == [] {
      assert general == [];
      assert ChannelCount(world) > 0;
    }
  }

  /** Without a channel nothing pending can be routed. */
  lemma NoChannelNothingRoutable(world: World, approval: Approval)
    requires ChannelCount(world) == 0
    ensures !Routable(world, approval)
  {
    var active := ActivePolicies(world);
    FilterElements(p => HasTarget(world.setup, p), active);
    forall i | 0 <= i < |active|
      ensures !HasTarget(world.setup, active[i])
    {
      assert active[i] in active;
      assert active[i] !in Filter(p => HasTarget(world.setup, p), active);
    }
  }

  // ----- the delivery -----

  datatype Config = Config(channel: string, url: Option<string>, maxAttempts: nat)

  datatype ChannelDelivery = ChannelDelivery(channel: string, delivered: bool, attempts: nat, maxAttempts: nat)

  datatype Delivery = Delivery(status: string, delivered: bool, targetCount: nat, channels: seq<ChannelDelivery>)

  function PolicyUrl(setup: Setup, policy: Policy): Option<string> {
    if policy.targetEnv.Some? then
      var value := setup.variable(policy.targetEnv.value);
      if value.Some? && !Blank(value.value) then value else None
    else if policy.channel == "webhook" then setup.webhookUrl
    else if policy.channel == "slack" then SlackUrl(setup)
    else if policy.channel == "email_relay" then EmailUrl(setup)
    else None
  }

  function PolicyConfig(setup: Setup, policy: Policy): Config {
    Config(policy.channel, PolicyUrl(setup, policy), if policy.maxAttempts < 1 then 1 else policy.maxAttempts)
  }

  function EnvConfig(channel: string, url: Option<string>): seq<Config> {
    if url.None? then [] else [Config(channel, url, 1)]
  }

  function Configs(world: World, approval: Approval): seq<Config> {
    var active := ActivePolicies(world);
    if active == [] then
      EnvConfig("webhook", world.setup.webhookUrl) + EnvConfig("slack", SlackUrl(world.setup))
      + EnvConfig("email_relay", EmailUrl(world.setup))
    else Map(p => PolicyConfig(world.setup, p), Filter(p => Matches(p, approval), active))
  }

  /** The network: whether a channel's n-th attempt, counted from one, gets a success answer. */
  type Network = (nat, nat) -> bool

  /** The first attempt from `n` on that succeeds, if there is one by `most`. */
  function FirstSuccess(answers: nat -> bool, n: nat, most: nat): (r: Option<nat>)
    ensures r.Some? ==> n <= r.value <= most && answers(r.value)
    ensures r.Some? ==> forall k :: n <= k < r.value ==> !answers(k)
    ensures r.None? ==> forall k :: n <= k <= most ==> !answers(k)
    decreases most + 1 - n
  {
    if n > most then None else if answers(n) then Some(n) else FirstSuccess(answers, n + 1, most)
  }

  function DeliverOne(config: Config, answers: nat -> bool): Result<ChannelDelivery> {
    if config.url.None? then Ok(ChannelDelivery(config.channel, false, 0, config.maxAttempts))
    else
      match FirstSuccess(answers, 1, config.maxAttempts)
      case None => Err("approval notification failed")
      case Some(n) => Ok(ChannelDelivery(config.channel, true, n, config.maxAttempts))
  }

  function Line(network: Network, i: nat): nat -> bool {
    (k: nat) => network(i, k)
  }

  /** Channels are tried in order; the first that fails ends the delivery. */
  function DeliverEach(configs: seq<Config>, network: Network, n: nat): Result<seq<ChannelDelivery>>
    requires n <= |configs|
  {
    if n == 0 then Ok([])
    else
      var before := DeliverEach(configs, network, n - 1);
      if before.Err? then before
      else
        match DeliverOne(configs[n - 1], Line(network, n - 1))
        case Err(e) => Err(e)
        case Ok(d) => Ok(before.value + [d])
  }

  function Deliver(world: World, approval: Approval, network: Network): Result<Delivery> {
    var targets := Targets(world, approval);
    if targets == [] then Ok(Delivery("reserved", false, 0, []))
    else
      var configs := Configs(world, approval);
      if configs == [] then Ok(Delivery("reserved", false, |targets|, []))
      else
        match DeliverEach(configs, network, |configs|)
        case Err(e) => Err(e)
        case Ok(channels) =>
          var delivered := exists i :: 0 <= i < |channels| && channels[i].delivered;
          Ok(Delivery(if delivered then "delivered" else "reserved", delivered, |targets|, channels))
  }

  /** The loop over one channel's attempts. */
  method DeliverChannel(config: Config, answers: nat -> bool) returns (r: Result<ChannelDelivery>)
    ensures r == DeliverOne(config, answers)
  {
    if config.url.None? {
      return Ok(ChannelDelivery(config.channel, false, 0, config.maxAttempts));
    }
    for attempt := 1 to config.maxAttempts + 1
      invariant FirstSuccess(answers, 1, config.maxAttempts) == FirstSuccess(answers, attempt, config.maxAttempts)
    {
      if answers(attempt) {
        return Ok(ChannelDelivery(config.channel, true, attempt, config.maxAttempts));
      }
    }
    return Err("approval notification failed");
  }

  lemma {:induction false} FailureEndsDelivery(configs: seq<Config>, network: Network, n: nat, m: nat)
    requires n <= m <= |configs| && DeliverEach(configs, network, n).Err?
    ensures DeliverEach(configs, network, m) == DeliverEach(configs, network, n)
  {
    if n < m {
      FailureEndsDelivery(configs, network, n, m - 1);
    }
  }

  /** The loop over the channels. */
  method DeliverChannels(configs: seq<Config>, network: Network) returns (r: Result<seq<ChannelDelivery>>)
    ensures r == DeliverEach(configs, network, |configs|)
  {
    var channels: seq<ChannelDelivery> := [];
    for i := 0 to |configs|
      invariant DeliverEach(configs, network, i) == Ok(channels)
    {
      var delivery := DeliverChannel(configs[i], Line(network, i));
      if delivery.Err? {
        FailureEndsDelivery(configs, network, i + 1, |configs|);
        return Err(delivery.error);
      }
      channels := channels + [delivery.value];
    }
    return Ok(channels);
  }

  method DeliverNotification(world: World, approval: Approval, network: Network) returns (r: Result<Delivery>)
    ensures r == Deliver(world, approval, network)
  {
    var targets := Targets(world, approval);
    if targets == [] {
      return Ok(Delivery("reserved", false, 0, []));
    }
    var configs := Configs(world, approval);
    if configs == [] {
      return Ok(Delivery("reserved", false, |targets|, []));
    }
    var channels := DeliverChannels(configs, network);
    if channels.Err? {
      return Err(channels.error);
    }
    var delivered := exists i :: 0 <= i < |channels.value| && channels.value[i].delivered;
    return Ok(Delivery(if delivered then "delivered" else "reserved", delivered, |targets|, channels.value));
  }

  // ----- the prediction is right -----

  lemma {:induction false} ChannelsOf(configs: seq<Config>, network: Network, n: nat)
    requires n <= |configs|
    ensures var r := DeliverEach(configs, network, n);
            && (r.Ok? <==> forall i :: 0 <= i < n ==> configs[i].url.None? || SucceedsInTime(configs, network, i))
            && (r.Ok? ==> |r.value| == n && forall i :: 0 <= i < |r.value| ==> ChannelFollows(configs[i], r.value[i]))
  {
    if n > 0 {
      ChannelsOf(configs, network, n - 1);
      var i := n - 1;
      var first := FirstSuccess(Line(network, i), 1, configs[i].maxAttempts);
      if first.Some? {
        assert network(i, first.value);
      } else {
        forall k: nat | 1 <= k <= configs[i].maxAttempts
          ensures !network(i, k)
        {
          assert !Line(network, i)(k);
        }
      }
      assert SucceedsInTime(configs, network, i) <==> first.Some?;
    }
  }

  /** A channel with an address has an attempt, within its limit, that is answered. */
  ghost predicate SucceedsInTime(configs: seq<Config>, network: Network, i: nat)
    requires i < |configs|
  {
    exists k: nat :: 1 <= k <= configs[i].maxAttempts && network(i, k)
  }

  predicate ChannelFollows(config: Config, d: ChannelDelivery) {
    && d.channel == config.channel && d.maxAttempts == config.maxAttempts
    && (d.delivered <==> config.url.Some?)
    && (d.delivered ==> 1 <= d.attempts <= d.maxAttempts)
    && (!d.delivered ==> d.attempts == 0)
  }

  /** The summary's test and the deliverer's address agree on every policy. */
  lemma HasTargetIffUrl(setup: Setup, policy: Policy)
    ensures HasTarget(setup, policy) <==> PolicyUrl(setup, policy).Some?
  {
  }

  predicate AnyOf<T>(has: T -> bool, s: seq<T>) {
    exists i :: 0 <= i < |s| && has(s[i])
  }

  lemma AnyKept<T(!new)>(keep: T -> bool, has: T -> bool, both: T -> bool, s: seq<T>)
    requires forall x :: both(x) <==> keep(x) && has(x)
    ensures AnyOf(both, s) <==> AnyOf(has, Filter(keep, s))
  {
    var kept := Filter(keep, s);
    FilterElements(keep, s);
    if AnyOf(both, s) {
      var i :| 0 <= i < |s| && both(s[i]);
      assert s[i] in s;
      assert s[i] in kept;
      var k :| 0 <= k < |kept| && kept[k] == s[i];
      assert has(kept[k]);
    }
    if AnyOf(has, kept) {
      var k :| 0 <= k < |kept| && has(kept[k]);
      assert kept[k] in kept;
      var i :| 0 <= i < |s| && s[i] == kept[k];
      assert both(s[i]);
    }
  }

  lemma PolicyUrlsDecide(world: World, approval: Approval)
    requires ActivePolicies(world) != []
    ensures ChannelReady(world, approval)
       <==> exists i :: 0 <= i < |Configs(world, approval)| && Configs(world, approval)[i].url.Some?
  {
    var active, configs := ActivePolicies(world), Configs(world, approval);
    var keep, has := (p: Policy) => Matches(p, approval), (p: Policy) => PolicyUrl(world.setup, p).Some?;
    var both := (p: Policy) => Matches(p, approval) && HasTarget(world.setup, p);
    forall p: Policy
      ensures both(p) <==> keep(p) && has(p)
    {
      HasTargetIffUrl(world.setup, p);
    }
    AnyKept(keep, has, both, active);
    var matching := Filter(keep, active);
    assert ChannelReady(world, approval) <==> AnyOf(both, active) by {
      assert forall i :: 0 <= i < |active| ==> (both(active[i]) <==> Matches(active[i], approval) && HasTarget(world.setup, active[i]));
    }
    assert |configs| == |matching| && forall k :: 0 <= k < |matching| ==> (configs[k].url.Some? <==> has(matching[k]));
  }

  lemma ReadyIffSomeUrl(world: World, approval: Approval)
    ensures ChannelReady(world, approval)
       <==> exists i :: 0 <= i < |Configs(world, approval)| && Configs(world, approval)[i].url.Some?
  {
    if ActivePolicies(world) == [] {
      if ChannelReady(world, approval) {
        assert Configs(world, approval)[0].url.Some?;
      }
    } else {
      PolicyUrlsDecide(world, approval);
    }
  }

  predicate DeliveredInTime(d: Delivery) {
    && d.delivered && d.status == "delivered"
    && exists i :: 0 <= i < |d.channels| && d.channels[i].delivered && 1 <= d.channels[i].attempts <= d.channels[i].maxAttempts
  }

  /**
    The summary and the delivery agree: an approval counts as unroutable exactly when
    delivering it returns an undelivered, reserved result; a routable one is delivered on
    some channel within its attempts, or the delivery fails.
   */
  lemma RoutingPredictsDelivery(world: World, approval: Approval, network: Network)
    ensures var r := Deliver(world, approval, network);
            && (!Routable(world, approval) <==> r.Ok? && !r.value.delivered && r.value.status == "reserved")
            && (Routable(world, approval) ==> r.Err? || DeliveredInTime(r.value))
  {
    var configs := Configs(world, approval);
    ReadyIffSomeUrl(world, approval);
    ChannelsOf(configs, network, |configs|);
    assert |"reserved"| == 8 && |"delivered"| == 9;
    var each := DeliverEach(configs, network, |configs|);
    if Targets(world, approval) != [] && configs != [] && each.Ok? {
      if i :| 0 <= i < |configs| && configs[i].url.Some? {
        assert ChannelFollows(configs[i], each.value[i]);
      } else {
        forall i | 0 <= i < |configs|
          ensures !each.value[i].delivered
        {
          assert ChannelFollows(configs[i], each.value[i]);
        }
      }
    }
    if Targets(world, approval) != [] && configs != [] && !ChannelReady(world, approval) {
      assert each.Ok?;
    }
  }

  /** Whether a routable approval's delivery goes through is decided by the network alone. */
  lemma DeliveryFailsIff(world: World, approval: Approval, network: Network)
    ensures var configs := Configs(world, approval);
            Deliver(world, approval, network).Err? <==>
              Targets(world, approval) != [] &&
              exists i :: 0 <= i < |configs| && configs[i].url.Some? && !SucceedsInTime(configs, network, i)
  {
    ChannelsOf(Configs(world, approval), network, |Configs(world, approval)|);
  }
}
