/** Checks that pin a list by its length and what it contains, and a path by its parts. */
module EvidenceChecklist {
  import opened Wrappers
  import opened Json
  import opened Sequences

  // ----- as long as expected, and every expectation met -----

  /** An item can meet one expectation only. */
  ghost predicate Exclusive<E(!new), T(!new)>(meets: (E, T) -> bool, expected: seq<E>, items: seq<T>) {
    forall d, e, i ::
      0 <= d < |expected| && 0 <= e < |expected| && 0 <= i < |items| && meets(expected[d], items[i]) && meets(expected[e], items[i]) ==>
        d == e
  }

  /** Some item meets the expectation. */
  predicate Met<E, T>(meets: (E, T) -> bool, expectation: E, items: seq<T>) {
    exists i :: 0 <= i < |items| && meets(expectation, items[i])
  }

  ghost predicate MetWithin<E(!new), T(!new)>(meets: (E, T) -> bool, expectation: E, items: seq<T>, allowed: set<nat>) {
    exists i :: i in allowed && i < |items| && meets(expectation, items[i])
  }

  lemma {:induction false} EachNeedsItsOwn<E(!new), T(!new)>(meets: (E, T) -> bool, expected: seq<E>, n: nat, items: seq<T>, allowed: set<nat>)
    requires n <= |expected| && Exclusive(meets, expected, items)
    requires forall e :: 0 <= e < n ==> MetWithin(meets, expected[e], items, allowed)
    ensures |allowed| >= n
  {
    if n > 0 {
      assert MetWithin(meets, expected[n - 1], items, allowed);
      var i :| i in allowed && i < |items| && meets(expected[n - 1], items[i]);
      forall e | 0 <= e < n - 1
        ensures MetWithin(meets, expected[e], items, allowed - {i})
      {
        assert MetWithin(meets, expected[e], items, allowed);
        var j :| j in allowed && j < |items| && meets(expected[e], items[j]);
        assert j != i;
      }
      EachNeedsItsOwn(meets, expected, n - 1, items, allowed - {i});
    }
  }

  function Below(n: nat): (s: set<nat>)
    ensures |s| == n && forall i: nat :: i in s <==> i < n
  {
    if n == 0 then {} else Below(n - 1) + {n - 1}
  }

  ghost predicate AllMet<E(!new), T(!new)>(meets: (E, T) -> bool, expected: seq<E>, items: seq<T>) {
    |items| == |expected| && forall e :: 0 <= e < |expected| ==> MetWithin(meets, expected[e], items, Below(|items|))
  }

  /** If all are met by a list just as long, no two items meet the same expectation. */
  lemma NothingRepeated<E(!new), T(!new)>(meets: (E, T) -> bool, expected: seq<E>, items: seq<T>, i: nat, j: nat, e: nat)
    requires Exclusive(meets, expected, items) && AllMet(meets, expected, items)
    requires i < |items| && j < |items| && e < |expected| && meets(expected[e], items[i]) && meets(expected[e], items[j])
    ensures i == j
  {
    if i != j {
      var others := Below(|items|) - {i};
      forall d | 0 <= d < |expected|
        ensures MetWithin(meets, expected[d], items, others)
      {
        assert MetWithin(meets, expected[d], items, Below(|items|));
        var k :| k in Below(|items|) && k < |items| && meets(expected[d], items[k]);
        if k == i {
          assert d == e;
          assert j in others && meets(expected[d], items[j]);
        } else {
          assert k in others;
        }
      }
      EachNeedsItsOwn(meets, expected, |expected|, items, others);
    }
  }

  /** And there is no item that meets none. */
  lemma NothingExtra<E(!new), T(!new)>(meets: (E, T) -> bool, expected: seq<E>, items: seq<T>, i: nat)
    requires Exclusive(meets, expected, items) && AllMet(meets, expected, items) && i < |items|
    ensures exists e :: 0 <= e < |expected| && meets(expected[e], items[i])
  {
    var others := Below(|items|) - {i};
    if forall e :: 0 <= e < |expected| ==> !meets(expected[e], items[i]) {
      forall d | 0 <= d < |expected|
        ensures MetWithin(meets, expected[d], items, others)
      {
        assert MetWithin(meets, expected[d], items, Below(|items|));
        var k :| k in Below(|items|) && k < |items| && meets(expected[d], items[k]);
        assert k in others;
      }
      EachNeedsItsOwn(meets, expected, |expected|, items, others);
    }
  }

  // ----- lists of texts -----

  predicate StringArrayEquals(value: Option<Json>, expected: seq<string>) {
    match AsArr(value)
    case None => false
    case Some(items) => |items| == |expected| && forall e :: 0 <= e < |expected| ==> Str(expected[e]) in items
  }

  lemma {:induction false} DistinctWithin(expected: seq<Json>, items: seq<Json>)
    requires Distinct(expected) && forall e :: 0 <= e < |expected| ==> expected[e] in items
    ensures multiset(expected) <= multiset(items)
  {
    if expected != [] {
      var front, last := expected[..|expected| - 1], expected[|expected| - 1];
      DistinctWithin(front, items);
      assert expected == front + [last];
      assert last !in front;
      assert multiset(items)[last] > 0;
    }
  }

  lemma SameSizeSubBag(a: multiset<Json>, b: multiset<Json>)
    requires a <= b && |a| == |b|
    ensures a == b
  {
    assert b == a + (b - a);
    assert |b - a| == 0;
  }

  /** For an expectation without repetitions, the check holds exactly for its rearrangements. */
  lemma StringArrayEqualsIff(value: Option<Json>, expected: seq<string>)
    requires Distinct(expected)
    ensures StringArrayEquals(value, expected) <==>
              AsArr(value).Some? && multiset(AsArr(value).value) == multiset(Map((s: string) => Str(s), expected))
  {
    var texts := Map((s: string) => Str(s), expected);
    if AsArr(value).Some? {
      var items := AsArr(value).value;
      assert |multiset(items)| == |items| && |multiset(texts)| == |texts|;
      if StringArrayEquals(value, expected) {
        DistinctWithin(texts, items);
        SameSizeSubBag(multiset(texts), multiset(items));
      }
      if multiset(items) == multiset(texts) {
        forall e | 0 <= e < |expected|
          ensures Str(expected[e]) in items
        {
          assert texts[e] in multiset(texts);
          assert texts[e] in multiset(items);
        }
      }
    }
  }

  // ----- the completion checklist's lane results -----

  datatype Lane = Lane(name: string, source: string)

  /** A result that shows this lane ready, from the expected source and with nothing at issue. */
  predicate ShowsReady(lane: Lane, result: Json) {
    && AsStr(Get(result, "lane")) == Some(lane.name)
    && AsStr(Get(result, "expected_source")) == Some(lane.source)
    && AsStr(Get(result, "status")) == Some("ready")
    && AsStr(Get(result, "summary_path")).Some? && AsStr(Get(result, "summary_path")).value != ""
    && (Get(result, "issue").Some? ==> Get(result, "issue").value.Null?)
  }

  predicate LaneResultsAccepted(checklist: Json, lanes: seq<Lane>) {
    match AsArr(Get(checklist, "lane_results"))
    case None => false
    case Some(results) =>
      |results| == |lanes| && forall l :: 0 <= l < |lanes| ==> Met(ShowsReady, lanes[l], results)
  }

  ghost predicate DistinctLanes(lanes: seq<Lane>) {
    forall k, l :: 0 <= k < l < |lanes| ==> lanes[k].name != lanes[l].name
  }

  /** An accepted list has a ready result for each lane and no other result: none extra, repeated or unready. */
  lemma AcceptedLanesAreExact(checklist: Json, lanes: seq<Lane>, i: nat, j: nat)
    requires DistinctLanes(lanes) && LaneResultsAccepted(checklist, lanes)
    requires i < |AsArr(Get(checklist, "lane_results")).value| && j < |AsArr(Get(checklist, "lane_results")).value|
    ensures var results := AsArr(Get(checklist, "lane_results")).value;
            && (exists l :: 0 <= l < |lanes| && ShowsReady(lanes[l], results[i]))
            && (AsStr(Get(results[i], "lane")) == AsStr(Get(results[j], "lane")) ==> i == j)
  {
    var results := AsArr(Get(checklist, "lane_results")).value;
    LaneResultsAllMet(lanes, results);
    NothingExtra(ShowsReady, lanes, results, i);
    NothingExtra(ShowsReady, lanes, results, j);
    var k :| 0 <= k < |lanes| && ShowsReady(lanes[k], results[i]);
    var l :| 0 <= l < |lanes| && ShowsReady(lanes[l], results[j]);
    if AsStr(Get(results[i], "lane")) == AsStr(Get(results[j], "lane")) {
      assert lanes[k].name == lanes[l].name;
      NothingRepeated(ShowsReady, lanes, results, i, j, k);
    }
  }

  lemma LaneResultsAllMet(lanes: seq<Lane>, results: seq<Json>)
    requires DistinctLanes(lanes) && |results| == |lanes|
    requires forall l :: 0 <= l < |lanes| ==> Met(ShowsReady, lanes[l], results)
    ensures Exclusive(ShowsReady, lanes, results) && AllMet(ShowsReady, lanes, results)
  {
    forall l | 0 <= l < |lanes|
      ensures MetWithin(ShowsReady, lanes[l], results, Below(|results|))
    {
      assert Met(ShowsReady, lanes[l], results);
      var i :| 0 <= i < |results| && ShowsReady(lanes[l], results[i]);
      assert i in Below(|results|);
    }
  }

  const LANES: seq<Lane> := [
    Lane("production-deployment-safety", "production-deployment-safety-gate"),
    Lane("runtime-production", "runtime-production-readiness-gate"),
    Lane("remote-computer-multinode", "remote-computer-production-state-gate"),
    Lane("live-connector-production", "live-connector-production-semantics-gate"),
    Lane("ontology-engine", "ontology-engine-production-gate"),
    Lane("ontology-release-workflow-trigger", "ontology-release-workflow-trigger-gate"),
    Lane("workflowpack-enterprise-lifecycle", "workflowpack-enterprise-lifecycle-gate"),
    Lane("enterprise-security-admin", "enterprise-security-production-controls-gate"),
    Lane("observability-ops", "observability-ops-production-gate"),
    Lane("product-surfaces", "product-surfaces-production-gate")]

  /** The checklist's ten lanes are ten different ones. */
  lemma LanesAreDistinct()
    ensures DistinctLanes(LANES) && |LANES| == 10
  {
    assert |LANES[0].name| == 28 && |LANES[1].name| == 18 && |LANES[4].name| == 15 && |LANES[8].name| == 17 && |LANES[9].name| == 16;
    assert |LANES[2].name| == |LANES[3].name| == |LANES[7].name| == 25 && |LANES[5].name| == |LANES[6].name| == 33;
    assert LANES[2].name[0] == 'r' && LANES[3].name[0] == 'l' && LANES[7].name[0] == 'e';
    assert LANES[5].name[0] == 'o' && LANES[6].name[0] == 'w';
  }

  // ----- a role's rules -----

  datatype Rule = Rule(group: string, resource: string, verbs: seq<string>)

  predicate RuleIsExact(rule: Rule, j: Json) {
    && StringArrayEquals(Get(j, "apiGroups"), [rule.group])
    && StringArrayEquals(Get(j, "resources"), [rule.resource])
    && StringArrayEquals(Get(j, "verbs"), rule.verbs)
  }

  predicate RoleAccepted(role: Json, rules: seq<Rule>) {
    match AsArr(Get(role, "rules"))
    case None => false
    case Some(items) => |items| == |rules| && forall r :: 0 <= r < |rules| ==> Met(RuleIsExact, rules[r], items)
  }

  predicate ListsText(value: Option<Json>, s: string) {
    AsArr(value).Some? && Str(s) in AsArr(value).value
  }

  /** What a role lets its holder do. */
  predicate Grants(role: Json, group: string, resource: string, verb: string) {
    AsArr(Get(role, "rules")).Some? &&
    exists i :: 0 <= i < |AsArr(Get(role, "rules")).value| && RuleGrants(AsArr(Get(role, "rules")).value[i], group, resource, verb)
  }

  predicate RuleGrants(j: Json, group: string, resource: string, verb: string) {
    ListsText(Get(j, "apiGroups"), group) && ListsText(Get(j, "resources"), resource) && ListsText(Get(j, "verbs"), verb)
  }

  predicate RuleAllows(rule: Rule, group: string, resource: string, verb: string) {
    rule.group == group && rule.resource == resource && verb in rule.verbs
  }

  ghost predicate DistinctResources(rules: seq<Rule>) {
    && (forall k, l :: 0 <= k < l < |rules| ==> rules[k].resource != rules[l].resource)
    && forall k :: 0 <= k < |rules| ==> Distinct(rules[k].verbs)
  }

  lemma ListedExactly(value: Option<Json>, expected: seq<string>, s: string)
    requires Distinct(expected) && StringArrayEquals(value, expected)
    ensures ListsText(value, s) <==> s in expected
  {
    StringArrayEqualsIff(value, expected);
    var items, texts := AsArr(value).value, Map((t: string) => Str(t), expected);
    assert Str(s) in items <==> Str(s) in multiset(texts);
    if s in expected {
      var i :| 0 <= i < |expected| && expected[i] == s;
      assert texts[i] == Str(s);
    }
    if Str(s) in texts {
      var i :| 0 <= i < |texts| && texts[i] == Str(s);
      assert expected[i] == s;
    }
  }

  lemma ExactRuleGrants(rule: Rule, j: Json, group: string, resource: string, verb: string)
    requires Distinct(rule.verbs) && RuleIsExact(rule, j)
    ensures RuleGrants(j, group, resource, verb) <==> RuleAllows(rule, group, resource, verb)
  {
    ListedExactly(Get(j, "apiGroups"), [rule.group], group);
    ListedExactly(Get(j, "resources"), [rule.resource], resource);
    ListedExactly(Get(j, "verbs"), rule.verbs, verb);
  }

  lemma RulesAllMet(rules: seq<Rule>, items: seq<Json>)
    requires DistinctResources(rules) && |items| == |rules|
    requires forall r :: 0 <= r < |rules| ==> Met(RuleIsExact, rules[r], items)
    ensures Exclusive(RuleIsExact, rules, items) && AllMet(RuleIsExact, rules, items)
  {
    forall d, e, i | 0 <= d < |rules| && 0 <= e < |rules| && 0 <= i < |items|
                     && RuleIsExact(rules[d], items[i]) && RuleIsExact(rules[e], items[i])
      ensures d == e
    {
      ListedExactly(Get(items[i], "resources"), [rules[d].resource], rules[d].resource);
      ListedExactly(Get(items[i], "resources"), [rules[e].resource], rules[d].resource);
      assert rules[d].resource in [rules[e].resource];
    }
    forall r | 0 <= r < |rules|
      ensures MetWithin(RuleIsExact, rules[r], items, Below(|items|))
    {
      assert Met(RuleIsExact, rules[r], items);
      var i :| 0 <= i < |items| && RuleIsExact(rules[r], items[i]);
      assert i in Below(|items|);
    }
  }

  lemma GrantedIsAllowed(rules: seq<Rule>, items: seq<Json>, i: nat, group: string, resource: string, verb: string)
    requires DistinctResources(rules) && Exclusive(RuleIsExact, rules, items) && AllMet(RuleIsExact, rules, items)
    requires i < |items| && RuleGrants(items[i], group, resource, verb)
    ensures exists r :: 0 <= r < |rules| && RuleAllows(rules[r], group, resource, verb)
  {
    NothingExtra(RuleIsExact, rules, items, i);
    var r :| 0 <= r < |rules| && RuleIsExact(rules[r], items[i]);
    ExactRuleGrants(rules[r], items[i], group, resource, verb);
    assert RuleAllows(rules[r], group, resource, verb);
  }

  lemma AllowedIsGranted(rules: seq<Rule>, items: seq<Json>, r: nat, group: string, resource: string, verb: string)
    requires r < |rules| && Distinct(rules[r].verbs) && Met(RuleIsExact, rules[r], items)
    requires RuleAllows(rules[r], group, resource, verb)
    ensures exists i :: 0 <= i < |items| && RuleGrants(items[i], group, resource, verb)
  {
    var i :| 0 <= i < |items| && RuleIsExact(rules[r], items[i]);
    ExactRuleGrants(rules[r], items[i], group, resource, verb);
    assert RuleGrants(items[i], group, resource, verb);
  }

  /** An accepted role grants exactly the expected verbs on the expected resources, and nothing else. */
  lemma AcceptedRoleGrantsExactly(role: Json, rules: seq<Rule>, group: string, resource: string, verb: string)
    requires DistinctResources(rules) && RoleAccepted(role, rules)
    ensures Grants(role, group, resource, verb) <==> exists r :: 0 <= r < |rules| && RuleAllows(rules[r], group, resource, verb)
  {
    var items := AsArr(Get(role, "rules")).value;
    if Grants(role, group, resource, verb) {
      RulesAllMet(rules, items);
      var i :| 0 <= i < |items| && RuleGrants(items[i], group, resource, verb);
      GrantedIsAllowed(rules, items, i, group, resource, verb);
    } else {
      forall r | 0 <= r < |rules|
        ensures !RuleAllows(rules[r], group, resource, verb)
      {
        assert Met(RuleIsExact, rules[r], items);
        if RuleAllows(rules[r], group, resource, verb) {
          AllowedIsGranted(rules, items, r, group, resource, verb);
        }
      }
    }
  }

  const SANDBOX_RULES: seq<Rule> := [
    Rule("", "pods", ["get"]),
    Rule("", "pods/exec", ["create", "get"]),
    Rule("extensions.agents.x-k8s.io", "sandboxclaims", ["get", "create", "delete"]),
    Rule("agents.x-k8s.io", "sandboxes", ["get"])]

  /** The sandbox role's four rules concern four resources, with no verb listed twice. */
  lemma SandboxRulesAreDistinct()
    ensures DistinctResources(SANDBOX_RULES) && |SANDBOX_RULES| == 4
  {
    assert |SANDBOX_RULES[0].resource| == 4 && |SANDBOX_RULES[1].resource| == 9;
    assert |SANDBOX_RULES[2].resource| == 13 && SANDBOX_RULES[2].resource[7] == 'c';
    assert |SANDBOX_RULES[3].resource| == 9 && SANDBOX_RULES[3].resource[0] == 's' && SANDBOX_RULES[1].resource[0] == 'p';
    assert |"get"| == 3 && |"create"| == |"delete"| == 6 && "create"[0] == 'c' && "delete"[0] == 'd';
  }

  // ----- relative paths -----

  /** The segments between slashes; there is always at least one. */
  function Split(path: string): (r: seq<string>)
    ensures r != []
  {
    if path == "" then [""]
    else
      var rest := Split(path[1..]);
      if path[0] == '/' then [""] + rest else [[path[0]] + rest[0]] + rest[1..]
  }

  function Join(names: seq<string>): string {
    if names == [] then "" else if |names| == 1 then names[0] else names[0] + "/" + Join(names[1..])
  }

  predicate Absolute(path: string) {
    path != "" && path[0] == '/'
  }

  /** A segment that names something, rather than staying put. */
  predicate Names(segment: string) {
    segment != "" && segment != "." && segment != ".."
  }

  function CheckedRelativePath(path: string): Option<string> {
    var names := Filter(Names, Split(path));
    if Absolute(path) || ".." in Split(path) || names == [] then None else Some(Join(names))
  }

  /** The loop over the path's components, pushing the names onto a clean path. */
  method CheckPath(path: string) returns (r: Option<string>)
    ensures r == CheckedRelativePath(path)
  {
    if Absolute(path) {
      return None;
    }
    var segments := Split(path);
    var clean: seq<string> := [];
    for i := 0 to |segments|
      invariant clean == Filter(Names, segments[..i]) && ".." !in segments[..i]
    {
      FilterGrows(Names, segments, i);
      if segments[i] == ".." {
        return None;
      }
      if segments[i] != "" && segments[i] != "." {
        clean := clean + [segments[i]];
      }
    }
    assert segments[..|segments|] == segments;
    return if clean == [] then None else Some(Join(clean));
  }

  predicate Plain(name: string) {
    '/' !in name
  }

  lemma {:induction false} SplitIsPlain(path: string)
    ensures forall i :: 0 <= i < |Split(path)| ==> Plain(Split(path)[i])
  {
    if path != "" {
      SplitIsPlain(path[1..]);
    }
  }

  lemma {:induction false} SplitName(name: string, rest: string)
    requires Plain(name)
    ensures Split(name) == [name]
    ensures Split(name + "/" + rest) == [name] + Split(rest)
  {
    if name == "" {
      assert (name + "/" + rest)[1..] == rest;
    } else {
      SplitName(name[1..], rest);
      assert (name + "/" + rest)[1..] == name[1..] + "/" + rest;
      assert [name[0]] + name[1..] == name;
    }
  }

  lemma {:induction false} SplitJoin(names: seq<string>)
    requires names != [] && forall i :: 0 <= i < |names| ==> Plain(names[i])
    ensures Split(Join(names)) == names
  {
    if |names| == 1 {
      SplitName(names[0], "");
    } else {
      SplitJoin(names[1..]);
      SplitName(names[0], Join(names[1..]));
      assert names == [names[0]] + names[1..];
    }
  }

  /** An accepted path is relative, is made of names only, and passes the check again unchanged. */
  lemma CheckedPathIsClean(path: string)
    requires CheckedRelativePath(path).Some?
    ensures var clean := CheckedRelativePath(path).value;
            && !Absolute(clean) && clean != ""
            && (forall i :: 0 <= i < |Split(clean)| ==> Names(Split(clean)[i]))
            && CheckedRelativePath(clean) == Some(clean)
  {
    var names := Filter(Names, Split(path));
    SplitIsPlain(path);
    FilterElements(Names, Split(path));
    forall i | 0 <= i < |names|
      ensures Plain(names[i]) && Names(names[i])
    {
      assert names[i] in names;
      var k :| 0 <= k < |Split(path)| && Split(path)[k] == names[i];
    }
    SplitJoin(names);
    FilterAll(Names, names);
    var clean := Join(names);
    assert names[0] != "" && clean[0] == names[0][0];
    assert names[0][0] in names[0];
    assert ".." !in names;
  }
}
