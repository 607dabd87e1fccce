/** Rendering a context packet into a prompt under a token budget. */
module ContextRendering {
  import opened Wrappers
  import opened Sequences
  import opened Text
  import opened ContextRetrieval

  // ----- truncation -----

  function Cut(s: string, bound: nat): string {
    if |s| <= bound then s else s[..if bound < 3 then 0 else bound - 3] + "..."
  }

  function Truncate(s: string, bound: nat): string {
    Cut(Trim(s), bound)
  }

  /** A text cut to fewer than three characters is longer than its bound. */
  lemma TruncateWithinBoundIff(s: string, bound: nat)
    ensures |Truncate(s, bound)| <= bound <==> bound >= 3 || |Trim(s)| <= bound
  {
  }

  lemma TruncatedIsTrimmed(s: string, bound: nat)
    ensures Trim(Truncate(s, bound)) == Truncate(s, bound)
  {
    TrimmedEnds(s);
    var trimmed, cut := Trim(s), Truncate(s, bound);
    if |trimmed| > bound {
      assert cut[|cut| - 1] == '.' && (bound > 3 ==> cut[0] == trimmed[0]) && (bound <= 3 ==> cut[0] == '.');
    }
    TrimLeavesTrimmed(cut);
  }

  lemma CutAgain(s: string, bound: nat, smaller: nat)
    requires smaller <= bound
    ensures Cut(Cut(s, bound), smaller) == Cut(s, smaller)
  {
    if |s| > bound && 3 <= smaller < bound {
      assert Cut(s, bound)[..smaller - 3] == s[..smaller - 3];
    }
  }

  /** Truncating again to the same or a smaller bound is truncating once, to the smaller. */
  lemma TruncateAgain(s: string, bound: nat, smaller: nat)
    requires smaller <= bound
    ensures Truncate(Truncate(s, bound), smaller) == Truncate(s, smaller)
  {
    TruncatedIsTrimmed(s, bound);
    CutAgain(Trim(s), bound, smaller);
  }

  // ----- budgets -----

  /** A requested bound, brought into its allowed range. */
  function Bounded(requested: Option<nat>, byDefault: nat, least: nat, most: nat): (r: nat)
    requires least <= byDefault <= most
    ensures least <= r <= most
    ensures (requested.Some? && least <= requested.value <= most) ==> r == requested.value
    ensures requested.None? ==> r == byDefault
  {
    var n := if requested.None? then byDefault else requested.value;
    if n < least then least else if n > most then most else n
  }

  /** A quarter of the length rounded up, and never nothing. */
  function EstimateTokens(s: string): nat {
    var quarters := (|s| + 3) / 4;
    if quarters < 1 then 1 else quarters
  }

  datatype Rendered = Rendered(
    id: string,
    objectType: string,
    objectKey: string,
    title: string,
    summary: string,
    trustLevel: string,
    freshness: string,
    sourceUri: Option<string>)

  function RenderObject(o: PacketObject, summaryChars: nat): Rendered {
    Rendered(o.id, o.objectType, o.objectKey, Truncate(o.title, summaryChars), Truncate(o.summary, summaryChars),
             o.trustLevel, o.freshness, o.sourceUri)
  }

  function TokensOf(r: Rendered): nat {
    EstimateTokens(r.objectType + " " + r.objectKey + " " + r.title + " " + r.summary + " "
                   + if r.sourceUri.Some? then r.sourceUri.value else "")
  }

  // ----- the greedy choice -----

  /** What each object would cost, the budget, and how many objects may be taken. */
  datatype Limits = Limits(budget: nat, cap: nat)

  /** The objects taken and left for want of tokens, by position, and the count left at the cap. */
  datatype Choice = Choice(used: nat, taken: seq<nat>, tooDear: seq<nat>, overCap: nat)

  function Offer(costs: seq<nat>, i: nat, limits: Limits, c: Choice): Choice
    requires i < |costs|
  {
    if |c.taken| >= limits.cap then c.(overCap := c.overCap + 1)
    else if c.used + costs[i] > limits.budget then c.(tooDear := c.tooDear + [i])
    else c.(used := c.used + costs[i], taken := c.taken + [i])
  }

  function Choose(costs: seq<nat>, n: nat, limits: Limits, start: nat): Choice
    requires n <= |costs|
  {
    if n == 0 then Choice(start, [], [], 0) else Offer(costs, n - 1, limits, Choose(costs, n - 1, limits, start))
  }

  function Total(costs: seq<nat>, picked: seq<nat>): nat
    requires forall k :: 0 <= k < |picked| ==> picked[k] < |costs|
  {
    if picked == [] then 0 else Total(costs, picked[..|picked| - 1]) + costs[picked[|picked| - 1]]
  }

  ghost predicate Increasing(s: seq<nat>, bound: nat) {
    && (forall i, j :: 0 <= i < j < |s| ==> s[i] < s[j])
    && (forall i :: 0 <= i < |s| ==> s[i] < bound)
  }

  /** Every object is taken, too dear or over the cap; what is taken keeps its order. */
  lemma {:induction false} ChoiceConserves(costs: seq<nat>, n: nat, limits: Limits, start: nat)
    requires n <= |costs|
    ensures var c := Choose(costs, n, limits, start);
            && |c.taken| + |c.tooDear| + c.overCap == n
            && Increasing(c.taken, n) && Increasing(c.tooDear, n)
            && (forall i :: i in c.taken ==> i !in c.tooDear)
            && |c.taken| <= limits.cap && (c.overCap > 0 ==> |c.taken| == limits.cap)
  {
    if n > 0 {
      ChoiceConserves(costs, n - 1, limits, start);
    }
  }

  /** The tokens used are the start plus the cost of what was taken, within the budget if anything was. */
  lemma {:induction false} ChoiceStaysInBudget(costs: seq<nat>, n: nat, limits: Limits, start: nat)
    requires n <= |costs|
    ensures var c := Choose(costs, n, limits, start);
            && Increasing(c.taken, n)
            && c.used == start + Total(costs, c.taken)
            && (c.taken != [] ==> c.used <= limits.budget)
  {
    if n > 0 {
      ChoiceStaysInBudget(costs, n - 1, limits, start);
      var before, c := Choose(costs, n - 1, limits, start), Choose(costs, n, limits, start);
      if c.taken != before.taken {
        assert c.taken[..|c.taken| - 1] == before.taken;
      }
    }
  }

  /** What was left for want of tokens would not fit at the end either. */
  lemma {:induction false} TooDearStaysTooDear(costs: seq<nat>, n: nat, limits: Limits, start: nat, i: nat)
    requires n <= |costs| && i in Choose(costs, n, limits, start).tooDear
    ensures i < n && Choose(costs, n, limits, start).used + costs[i] > limits.budget
  {
    if n > 0 {
      var before := Choose(costs, n - 1, limits, start);
      if i in before.tooDear {
        TooDearStaysTooDear(costs, n - 1, limits, start, i);
      }
    }
  }

  /**
    Each object is decided on what was taken before it and on nothing else: it is taken
    if there is room under the cap and in the budget, and called too dear only if there
    was room under the cap.
   */
  lemma {:induction false} EachIsDecidedInTurn(costs: seq<nat>, n: nat, limits: Limits, start: nat, i: nat)
    requires i < n <= |costs|
    ensures var before, c := Choose(costs, i, limits, start), Choose(costs, n, limits, start);
            && Increasing(before.taken, i)
            && (forall k :: k < i ==> (k in c.taken <==> k in before.taken))
            && (i in c.taken <==> |before.taken| < limits.cap && start + Total(costs, before.taken) + costs[i] <= limits.budget)
            && (i in c.tooDear <==> |before.taken| < limits.cap && i !in c.taken)
  {
    var before := Choose(costs, i, limits, start);
    ChoiceConserves(costs, i, limits, start);
    ChoiceStaysInBudget(costs, i, limits, start);
    if n == i + 1 {
      assert forall k :: k in before.taken ==> k < i;
      assert forall k :: k in before.tooDear ==> k < i;
    } else {
      EachIsDecidedInTurn(costs, n - 1, limits, start, i);
    }
  }

  /** A smaller cap, all else equal, cuts the choice short: it takes the first ones of the larger cap's choice. */
  lemma {:induction false} SmallerCapIsPrefix(costs: seq<nat>, n: nat, limits: Limits, smaller: nat, start: nat)
    requires n <= |costs| && smaller <= limits.cap
    ensures var c, d := Choose(costs, n, limits.(cap := smaller), start), Choose(costs, n, limits, start);
            && c.taken == Take(smaller, d.taken)
            && (|c.taken| < smaller ==> c == d)
  {
    if n > 0 {
      SmallerCapIsPrefix(costs, n - 1, limits, smaller, start);
    }
  }

  function Sum(costs: seq<nat>, n: nat): nat
    requires n <= |costs|
  {
    if n == 0 then 0 else Sum(costs, n - 1) + costs[n - 1]
  }

  /** Nothing is left out exactly when all the objects fit under the cap and, together, in the budget. */
  lemma {:induction false} EverythingTakenIff(costs: seq<nat>, n: nat, limits: Limits, start: nat)
    requires n <= |costs|
    ensures var c := Choose(costs, n, limits, start);
            && (|c.taken| == n <==> n == 0 || (n <= limits.cap && start + Sum(costs, n) <= limits.budget))
            && (|c.taken| == n ==> c.used == start + Sum(costs, n))
            && |c.taken| <= n
  {
    if n > 0 {
      EverythingTakenIff(costs, n - 1, limits, start);
    }
  }

  // ----- the renderer -----

  datatype RenderInput = RenderInput(
    maxPromptTokens: Option<nat>,
    maxObjects: Option<nat>,
    maxSummaryChars: Option<nat>,
    maxPolicyReminders: Option<nat>,
    allowOnDemandFetch: Option<bool>)

  /** The packet, with the serialised texts of its task and layers. */
  datatype Packet = Packet(
    id: string,
    role: string,
    scopes: string,
    task: string,
    layers: string,
    policyReminders: seq<string>,
    freshnessWarnings: seq<string>,
    objects: seq<PacketObject>)

  datatype RenderedContext = RenderedContext(
    mustFollow: seq<string>,
    relevant: seq<Rendered>,
    tokensUsed: nat,
    tokenBudgetExceeded: nat,
    objectLimitExceeded: nat,
    remindersOmitted: nat,
    fetchable: seq<string>)

  /** Reminders first; warnings fill what room is left. */
  function MustFollow(packet: Packet, cap: nat): seq<string> {
    var reminders := Take(cap, packet.policyReminders);
    reminders + Map(w => "Freshness warning: " + w, Take(cap - |reminders|, packet.freshnessWarnings))
  }

  /** As many as the cap, or all there are. */
  function FilledTo(packet: Packet, cap: nat): nat {
    var all := |packet.policyReminders| + |packet.freshnessWarnings|;
    if all < cap then all else cap
  }

  /** Reminders crowd out warnings, and the cap is filled if it can be. */
  lemma MustFollowFills(packet: Packet, cap: nat)
    ensures var m := MustFollow(packet, cap);
            && |m| == FilledTo(packet, cap)
            && forall i :: 0 <= i < |m| && i < |packet.policyReminders| ==> m[i] == packet.policyReminders[i]
  {
  }

  function Join(parts: seq<string>): string {
    if parts == [] then "" else if |parts| == 1 then parts[0] else parts[0] + " " + Join(parts[1..])
  }

  function BaseTokens(packet: Packet, mustFollow: seq<string>): nat {
    EstimateTokens(packet.id + " " + packet.role + " " + packet.scopes + " " + Join(mustFollow))
    + EstimateTokens(packet.task) + EstimateTokens(packet.layers)
  }

  function RenderedAll(objects: seq<PacketObject>, chars: nat): (r: seq<Rendered>)
    ensures |r| == |objects|
  {
    Map(o => RenderObject(o, chars), objects)
  }

  function Costs(objects: seq<PacketObject>, chars: nat): (r: seq<nat>)
    ensures |r| == |objects|
  {
    Map(TokensOf, RenderedAll(objects, chars))
  }

  /** The rendered objects at the taken positions. */
  function Pick(rendered: seq<Rendered>, taken: seq<nat>): seq<Rendered> {
    if taken == [] then []
    else
      var last := taken[|taken| - 1];
      Pick(rendered, taken[..|taken| - 1]) + if last < |rendered| then [rendered[last]] else []
  }

  lemma {:induction false} PickKeepsOrder(rendered: seq<Rendered>, taken: seq<nat>)
    requires forall k :: 0 <= k < |taken| ==> taken[k] < |rendered|
    ensures |Pick(rendered, taken)| == |taken|
    ensures forall k :: 0 <= k < |taken| ==> Pick(rendered, taken)[k] == rendered[taken[k]]
  {
    if taken != [] {
      PickKeepsOrder(rendered, taken[..|taken| - 1]);
    }
  }

  lemma PickNext(rendered: seq<Rendered>, taken: seq<nat>, i: nat)
    requires i < |rendered|
    ensures Pick(rendered, taken + [i]) == Pick(rendered, taken) + [rendered[i]]
  {
    assert (taken + [i])[..|taken|] == taken;
  }

  method CollectReminders(packet: Packet, cap: nat) returns (mustFollow: seq<string>)
    ensures mustFollow == MustFollow(packet, cap)
  {
    mustFollow := Take(cap, packet.policyReminders);
    if |mustFollow| < cap {
      mustFollow := mustFollow + Map(w => "Freshness warning: " + w, Take(cap - |mustFollow|, packet.freshnessWarnings));
    }
  }

  /** One object as it would be rendered, and what that costs. */
  method RenderOne(objects: seq<PacketObject>, i: nat, chars: nat) returns (rendered: Rendered, tokens: nat)
    requires i < |objects|
    ensures rendered == RenderedAll(objects, chars)[i] && tokens == Costs(objects, chars)[i]
  {
    rendered := RenderObject(objects[i], chars);
    tokens := TokensOf(rendered);
  }

  /** The loop over the packet's objects. */
  method ChooseObjects(objects: seq<PacketObject>, chars: nat, limits: Limits, start: nat)
    returns (relevant: seq<Rendered>, used: nat, tooDear: nat, overCap: nat)
    ensures var c := Choose(Costs(objects, chars), |objects|, limits, start);
            && relevant == Pick(RenderedAll(objects, chars), c.taken)
            && used == c.used && tooDear == |c.tooDear| && overCap == c.overCap
  {
    relevant, used, tooDear, overCap := [], start, 0, 0;
    ghost var all, costs := RenderedAll(objects, chars), Costs(objects, chars);
    ghost var c := Choose(costs, 0, limits, start);
    for i := 0 to |objects|
      invariant c == Choose(costs, i, limits, start)
      invariant relevant == Pick(all, c.taken) && |relevant| == |c.taken|
      invariant used == c.used && tooDear == |c.tooDear| && overCap == c.overCap
    {
      ghost var before := c;
      c := Offer(costs, i, limits, before);
      if |relevant| >= limits.cap {
        overCap := overCap + 1;
      } else {
        var rendered, tokens := RenderOne(objects, i, chars);
        if used + tokens > limits.budget {
          tooDear := tooDear + 1;
        } else {
          used := used + tokens;
          relevant := relevant + [rendered];
          PickNext(all, before.taken, i);
        }
      }
    }
  }

  method Render(packet: Packet, input: RenderInput) returns (r: RenderedContext)
    ensures var budget := Bounded(input.maxPromptTokens, 1_500, 256, 8_000);
            var chars := Bounded(input.maxSummaryChars, 280, 32, 1_200);
            var reminders := Bounded(input.maxPolicyReminders, 3, 0, 12);
            var limits := Limits(budget, Bounded(input.maxObjects, 5, 1, 20));
            var c := Choose(Costs(packet.objects, chars), |packet.objects|, limits, BaseTokens(packet, MustFollow(packet, reminders)));
            && r.mustFollow == MustFollow(packet, reminders)
            && |r.mustFollow| == FilledTo(packet, reminders)
            && Increasing(c.taken, |packet.objects|)
            && r.relevant == Pick(RenderedAll(packet.objects, chars), c.taken)
            && r.tokensUsed == c.used
            && r.tokenBudgetExceeded == |c.tooDear| && r.objectLimitExceeded == c.overCap
            && |r.relevant| + r.tokenBudgetExceeded + r.objectLimitExceeded == |packet.objects|
            && r.remindersOmitted == (if |packet.policyReminders| > reminders then |packet.policyReminders| - reminders else 0)
            && r.fetchable == (if input.allowOnDemandFetch == Some(false) then [] else Map((o: PacketObject) => o.id, packet.objects))
  {
    var maxPromptTokens := Bounded(input.maxPromptTokens, 1_500, 256, 8_000);
    var maxObjects := Bounded(input.maxObjects, 5, 1, 20);
    var chars := Bounded(input.maxSummaryChars, 280, 32, 1_200);
    var maxReminders := Bounded(input.maxPolicyReminders, 3, 0, 12);
    var mustFollow := CollectReminders(packet, maxReminders);
    MustFollowFills(packet, maxReminders);
    var limits, start := Limits(maxPromptTokens, maxObjects), BaseTokens(packet, mustFollow);
    var relevant, used, tooDear, overCap := ChooseObjects(packet.objects, chars, limits, start);
    ChoiceConserves(Costs(packet.objects, chars), |packet.objects|, limits, start);
    PickKeepsOrder(RenderedAll(packet.objects, chars), Choose(Costs(packet.objects, chars), |packet.objects|, limits, start).taken);
    var fetchable := if input.allowOnDemandFetch == Some(false) then [] else Map((o: PacketObject) => o.id, packet.objects);
    r := RenderedContext(mustFollow, relevant, used, tooDear, overCap,
                         if |packet.policyReminders| > maxReminders then |packet.policyReminders| - maxReminders else 0, fetchable);
  }
}
