/** Which stored objects a context packet offers, and what a search over it returns. */
module ContextRetrieval {
  import opened Wrappers
  import opened Json
  import opened Sequences
  import opened Text

  datatype SemanticObject = SemanticObject(status: string, body: PacketObject)

  datatype PacketObject = PacketObject(
    id: string,
    objectType: string,
    objectKey: string,
    title: string,
    summary: string,
    sourceUri: Option<string>,
    trustLevel: string,
    freshness: string,
    scopes: Json)

  const PACKET_LIMIT: nat := 12

  // ----- scopes -----

  /** A scope an object or a context declares under a key: a string that is not blank. */
  function ScopeAt(scopes: Json, key: string): Option<string> {
    match AsStr(Get(scopes, key))
    case None => None
    case Some(text) => if Blank(text) then None else Some(Trim(text))
  }

  function DeclaredKeys(scopes: Json): set<string> {
    if scopes.Obj? then set key | key in scopes.fields && ScopeAt(scopes, key).Some? else {}
  }

  /** The context holds the same text under the key, after trimming. */
  predicate ScopeAgrees(scopes: Json, context: Json, key: string) {
    && ScopeAt(scopes, key).Some?
    && AsStr(Get(context, key)).Some? && Some(Trim(AsStr(Get(context, key)).value)) == ScopeAt(scopes, key)
  }

  /** An object is in scope when every scope it declares agrees, and it declares one. */
  predicate MatchesScope(scopes: Json, context: Json) {
    && scopes.Obj? && context.Obj?
    && (forall key :: key in DeclaredKeys(scopes) ==> ScopeAgrees(scopes, context, key))
    && |DeclaredKeys(scopes)| > 0
  }

  lemma CountAnother<T>(declared: set<T>, left: set<T>, key: T)
    requires key in left
    ensures |declared - (left - {key})| == |declared - left| + if key in declared then 1 else 0
  {
    if key in declared {
      assert declared - (left - {key}) == (declared - left) + {key};
    } else {
      assert declared - (left - {key}) == declared - left;
    }
  }

  /** The check as it is made, one field at a time, in whatever order the fields come. */
  method CheckScope(scopes: Json, context: Json) returns (matches: bool)
    ensures matches <==> MatchesScope(scopes, context)
  {
    if !scopes.Obj? || !context.Obj? {
      return false;
    }
    var matched, left := 0, scopes.fields.Keys;
    ghost var declared := DeclaredKeys(scopes);
    assert declared - left == {};
    while left != {}
      invariant left <= scopes.fields.Keys
      invariant forall key :: key in declared && key !in left ==> ScopeAgrees(scopes, context, key)
      invariant matched == |declared - left|
    {
      var key :| key in left;
      CountAnother(declared, left, key);
      left := left - {key};
      if ScopeAt(scopes, key).Some? {
        matched := matched + 1;
        if !ScopeAgrees(scopes, context, key) {
          return false;
        }
      }
    }
    assert declared - left == declared;
    return matched > 0;
  }

  /** How many declared scopes agree. */
  function Specificity(scopes: Json, context: Json): nat {
    if scopes.Obj? && context.Obj? then |set key | key in scopes.fields && ScopeAgrees(scopes, context, key)| else 0
  }

  /** Being in scope is agreeing on all the declared scopes, of which there is one. */
  lemma MatchesIffFullySpecific(scopes: Json, context: Json)
    ensures MatchesScope(scopes, context) <==> Specificity(scopes, context) == |DeclaredKeys(scopes)| > 0
  {
    if scopes.Obj? && context.Obj? {
      var agreed := set key | key in scopes.fields && ScopeAgrees(scopes, context, key);
      assert agreed <= DeclaredKeys(scopes);
      if MatchesScope(scopes, context) {
        assert agreed == DeclaredKeys(scopes);
      } else if |agreed| == |DeclaredKeys(scopes)| {
        SubsetOfSameSize(agreed, DeclaredKeys(scopes));
      }
    }
  }

  lemma SubsetOfSameSize<T>(a: set<T>, b: set<T>)
    requires a <= b && |a| == |b|
    ensures a == b
  {
    assert |b - a| == |b| - |a|;
    assert b == a + (b - a);
  }

  // ----- ranking -----

  function FreshnessScore(freshness: string): nat {
    if freshness == "current" then 30
    else if freshness == "unknown" then 10
    else if freshness == "stale" then 5
    else 0
  }

  function TrustScore(trust: string): nat {
    if trust == "system_verified" then 30
    else if trust == "human_verified" then 25
    else if trust == "source_attested" then 15
    else if trust == "unverified" then 5
    else 0
  }

  function Rank(item: PacketObject): nat {
    FreshnessScore(item.freshness) + TrustScore(item.trustLevel)
  }

  /** Higher rank first, then the more specific, then the smaller key. */
  predicate Before(context: Json, a: PacketObject, b: PacketObject) {
    if Rank(a) != Rank(b) then Rank(a) > Rank(b)
    else if Specificity(a.scopes, context) != Specificity(b.scopes, context) then
      Specificity(a.scopes, context) > Specificity(b.scopes, context)
    else AtMost(a.objectKey, b.objectKey)
  }

  function Order(context: Json): (PacketObject, PacketObject) -> bool {
    (a, b) => Before(context, a, b)
  }

  lemma OrderIsTotalPreorder(context: Json)
    ensures TotalPreorder(Order(context))
  {
    AtMostIsTotalPreorder();
    var le := Order(context);
    forall a, b
      ensures le(a, b) || le(b, a)
    {
      assert AtMost(a.objectKey, b.objectKey) || AtMost(b.objectKey, a.objectKey);
    }
    forall a, b, c | le(a, b) && le(b, c)
      ensures le(a, c)
    {
      assert AtMost(a.objectKey, b.objectKey) && AtMost(b.objectKey, c.objectKey) ==> AtMost(a.objectKey, c.objectKey);
    }
  }

  // ----- retrieval and memory scope -----

  function InScope(context: Json): SemanticObject -> bool {
    (o: SemanticObject) => o.status == "active" && MatchesScope(o.body.scopes, context)
  }

  /** The active stored objects in scope, in stored order. */
  function Scoped(store: seq<SemanticObject>, context: Json): seq<PacketObject> {
    Map((o: SemanticObject) => o.body, Filter(InScope(context), store))
  }

  function Retrieve(store: seq<SemanticObject>, context: Json): seq<PacketObject> {
    Take(PACKET_LIMIT, Sort(Order(context), Scoped(store, context)))
  }

  /**
    The retrieved objects come best first: by rank, then by specificity, then by key.  No
    object comes before a fresher one it equals in trust, or a verified one it equals in freshness.
   */
  lemma RetrievedBestFirst(store: seq<SemanticObject>, context: Json, i: nat, j: nat)
    requires i < j < |Retrieve(store, context)|
    ensures var a, b := Retrieve(store, context)[i], Retrieve(store, context)[j];
            && Rank(a) >= Rank(b)
            && (Rank(a) == Rank(b) ==> Specificity(a.scopes, context) >= Specificity(b.scopes, context))
            && (Rank(a) == Rank(b) && Specificity(a.scopes, context) == Specificity(b.scopes, context) ==>
                  AtMost(a.objectKey, b.objectKey))
            && (a.freshness != "current" && b.freshness == "current" ==> a.trustLevel != b.trustLevel)
            && (a.trustLevel != "system_verified" && b.trustLevel == "system_verified" ==> a.freshness != b.freshness)
  {
    var a, b := Retrieve(store, context)[i], Retrieve(store, context)[j];
    RankPrefersFreshAndTrusted(b, a);
    OrderIsTotalPreorder(context);
    var ranked := Sort(Order(context), Scoped(store, context));
    SortSorted(Order(context), Scoped(store, context));
    assert Order(context)(ranked[i], ranked[j]);
  }

  /** Among equally trusted objects the fresher ranks higher; one trust level counts for less than being current. */
  lemma RankPrefersFreshAndTrusted(a: PacketObject, b: PacketObject)
    ensures a.freshness == "current" && b.freshness != "current" && a.trustLevel == b.trustLevel ==> Rank(a) >= Rank(b) + 20
    ensures a.trustLevel == "system_verified" && b.trustLevel != "system_verified" && a.freshness == b.freshness ==> Rank(a) > Rank(b)
    ensures a.trustLevel == "human_verified" && b.trustLevel == "source_attested" && a.freshness == b.freshness ==> Rank(a) == Rank(b) + 10
    ensures Rank(a) <= 60
  {
  }

  function TrustRank(level: string): Option<nat> {
    var level := Lower(Trim(level));
    if level == "none" || level == "unverified" then Some(0)
    else if level == "verified" || level == "source_attested" then Some(1)
    else if level == "human_verified" then Some(2)
    else if level == "system_verified" then Some(3)
    else None
  }

  /** Levels that are both ranked are compared by rank; otherwise only the same text will do. */
  predicate TrustSatisfies(actual: string, minimum: string) {
    match (TrustRank(actual), TrustRank(minimum))
    case (Some(a), Some(m)) => a >= m
    case _ => actual == minimum
  }

  function MinimumTrust(memory: Json): Option<string> {
    match AsStr(Get(memory, "minimum_trust_level"))
    case None => None
    case Some(text) => if Blank(text) then None else Some(Trim(text))
  }

  /** Of two ranked minimums the stricter admits no level the laxer refuses; an unranked one admits only itself. */
  lemma StricterMinimumAdmitsFewer(actual: string, laxer: string, stricter: string)
    ensures (TrustRank(laxer).Some? && TrustRank(stricter).Some? && TrustRank(laxer).value <= TrustRank(stricter).value) ==>
              TrustSatisfies(actual, stricter) ==> TrustSatisfies(actual, laxer)
    ensures TrustRank(laxer).None? ==> (TrustSatisfies(actual, laxer) <==> actual == laxer)
  {
  }

  predicate TypeAllowed(memory: Json, item: PacketObject) {
    var allowed := StringSet(memory, "allowed_object_types");
    allowed == {} || item.objectType in allowed
  }

  predicate IdAllowed(memory: Json, item: PacketObject) {
    var allowed := StringSet(memory, "allowed_object_ids");
    allowed == {} || item.id in allowed
  }

  predicate TrustAllowed(memory: Json, item: PacketObject) {
    MinimumTrust(memory).Some? ==> TrustSatisfies(item.trustLevel, MinimumTrust(memory).value)
  }

  /** The test a scoped lookup puts to one item. */
  predicate Satisfies(memory: Json, item: PacketObject) {
    TypeAllowed(memory, item) && IdAllowed(memory, item) && TrustAllowed(memory, item)
  }

  /** Two grants that differ only in how much trust they ask for, both levels ranked if there are two. */
  ghost predicate Stricter(stricter: Json, laxer: Json) {
    && StringSet(stricter, "allowed_object_types") == StringSet(laxer, "allowed_object_types")
    && StringSet(stricter, "allowed_object_ids") == StringSet(laxer, "allowed_object_ids")
    && (MinimumTrust(laxer).Some? ==>
          && MinimumTrust(stricter).Some?
          && var (less, more) := (TrustRank(MinimumTrust(laxer).value), TrustRank(MinimumTrust(stricter).value));
             less.Some? && more.Some? && less.value <= more.value)
  }

  /** A scoped lookup under the stricter grant admits nothing that the laxer one refuses. */
  lemma StricterGrantAdmitsFewer(stricter: Json, laxer: Json, objects: seq<PacketObject>)
    requires Stricter(stricter, laxer)
    ensures Filter(o => Satisfies(stricter, o), Filter(o => Satisfies(laxer, o), objects)) == Filter(o => Satisfies(stricter, o), objects)
  {
    forall o: PacketObject
      ensures Satisfies(stricter, o) ==> Satisfies(laxer, o)
    {
      if MinimumTrust(laxer).Some? && MinimumTrust(stricter).Some? {
        StricterMinimumAdmitsFewer(o.trustLevel, MinimumTrust(laxer).value, MinimumTrust(stricter).value);
      }
    }
    FilterTwice(o => Satisfies(laxer, o), o => Satisfies(stricter, o), o => Satisfies(stricter, o), objects);
  }

  /** The grant's filter over a whole list, and its cap. */
  function ApplyMemoryScope(memory: Json, objects: seq<PacketObject>): seq<PacketObject> {
    var filtered := Filter(o => TrustAllowed(memory, o), Filter(o => IdAllowed(memory, o), Filter(o => TypeAllowed(memory, o), objects)));
    match AsNat(Get(memory, "max_objects"))
    case None => filtered
    case Some(n) => Take(n, filtered)
  }

  /** The objects a packet built under a grant offers. */
  function PacketObjects(store: seq<SemanticObject>, context: Json, memory: Json): seq<PacketObject> {
    ApplyMemoryScope(memory, Retrieve(store, context))
  }

  /** What a scoped lookup searches: the whole store, without the packet's caps. */
  function Candidates(store: seq<SemanticObject>, context: Json, memory: Json): seq<PacketObject> {
    Sort(Order(context), Filter(o => Satisfies(memory, o), Scoped(store, context)))
  }

  lemma BatchFilterIsSingleTest(memory: Json, objects: seq<PacketObject>)
    ensures ApplyMemoryScope(memory, objects) <= Filter(o => Satisfies(memory, o), objects)
    ensures AsNat(Get(memory, "max_objects")).None? ==>
              ApplyMemoryScope(memory, objects) == Filter(o => Satisfies(memory, o), objects)
  {
    var byType, byId := (o: PacketObject) => TypeAllowed(memory, o), (o: PacketObject) => IdAllowed(memory, o);
    var byTypeAndId := (o: PacketObject) => TypeAllowed(memory, o) && IdAllowed(memory, o);
    FilterTwice(byType, byId, byTypeAndId, objects);
    FilterTwice(byTypeAndId, o => TrustAllowed(memory, o), o => Satisfies(memory, o), objects);
  }

  /** With the store unchanged, the packet offers a first part of what a scoped lookup would search. */
  lemma PacketIsPrefixOfCandidates(store: seq<SemanticObject>, context: Json, memory: Json)
    ensures PacketObjects(store, context, memory) <= Candidates(store, context, memory)
  {
    var keep := o => Satisfies(memory, o);
    var ranked := Sort(Order(context), Scoped(store, context));
    OrderIsTotalPreorder(context);
    BatchFilterIsSingleTest(memory, Retrieve(store, context));
    FilterKeepsPrefix(keep, Retrieve(store, context), ranked);
    FilterCommutesWithSort(Order(context), keep, Scoped(store, context));
  }

  /** If neither cap bites, the packet offers exactly what a scoped lookup would search. */
  lemma PacketIsAllCandidates(store: seq<SemanticObject>, context: Json, memory: Json)
    requires |Scoped(store, context)| <= PACKET_LIMIT
    requires var cap := AsNat(Get(memory, "max_objects")); cap.Some? ==> cap.value >= |Candidates(store, context, memory)|
    ensures PacketObjects(store, context, memory) == Candidates(store, context, memory)
  {
    PacketIsPrefixOfCandidates(store, context, memory);
    var keep := o => Satisfies(memory, o);
    OrderIsTotalPreorder(context);
    FilterCommutesWithSort(Order(context), keep, Scoped(store, context));
    BatchFilterIsSingleTest(memory, Retrieve(store, context));
    BatchFilterLength(memory, Retrieve(store, context));
  }

  lemma BatchFilterLength(memory: Json, objects: seq<PacketObject>)
    ensures var all, cap := |Filter(o => Satisfies(memory, o), objects)|, AsNat(Get(memory, "max_objects"));
            |ApplyMemoryScope(memory, objects)| == if cap.Some? && cap.value < all then cap.value else all
  {
    var byType, byId := (o: PacketObject) => TypeAllowed(memory, o), (o: PacketObject) => IdAllowed(memory, o);
    var byTypeAndId := (o: PacketObject) => TypeAllowed(memory, o) && IdAllowed(memory, o);
    FilterTwice(byType, byId, byTypeAndId, objects);
    FilterTwice(byTypeAndId, o => TrustAllowed(memory, o), o => Satisfies(memory, o), objects);
  }

  // ----- search -----

  datatype SearchInput = SearchInput(maxResults: Option<nat>, query: Option<string>, objectType: Option<string>)

  datatype SearchResult = SearchResult(beforeFilter: nat, matched: nat, results: seq<PacketObject>)

  /** A text input counts only if something is left after trimming. */
  function Meaningful(text: Option<string>): Option<string> {
    if text.Some? && !Blank(text.value) then Some(Trim(text.value)) else None
  }

  function ResultLimit(input: SearchInput): nat {
    if input.maxResults.None? then 10
    else if input.maxResults.value < 1 then 1
    else if input.maxResults.value > 25 then 25
    else input.maxResults.value
  }

  predicate Mentions(item: PacketObject, query: string) {
    || Contains(Lower(item.objectType), Lower(query)) || Contains(Lower(item.objectKey), Lower(query))
    || Contains(Lower(item.title), Lower(query)) || Contains(Lower(item.summary), Lower(query))
  }

  /** What the caller asked to see, as a test on one item. */
  predicate Wanted(input: SearchInput, item: PacketObject) {
    && (Meaningful(input.objectType).Some? ==> item.objectType == Meaningful(input.objectType).value)
    && (Meaningful(input.query).Some? ==> Mentions(item, Meaningful(input.query).value))
  }

  function SearchOver(candidates: seq<PacketObject>, input: SearchInput): SearchResult {
    var matching := Filter(o => Wanted(input, o), candidates);
    SearchResult(|candidates|, |matching|, Take(ResultLimit(input), matching))
  }

  predicate ScopedLookup(grantMemory: Option<Json>) {
    grantMemory.Some? && Meaningful(AsStr(Get(grantMemory.value, "mode"))) == Some("scoped_lookup")
  }

  /** The search handler over a packet and, if the grant allows it, over the store. */
  method Search(store: seq<SemanticObject>, packetId: string, context: Json, offered: seq<PacketObject>,
                grantMemory: Option<Json>, askedPacketId: string, input: SearchInput)
    returns (r: Result<SearchResult>)
    ensures r.Ok? <==> askedPacketId == packetId
    ensures r.Ok? ==>
              r.value == SearchOver(if ScopedLookup(grantMemory) then Candidates(store, context, grantMemory.value) else offered,
                                    input)
  {
    if askedPacketId != packetId {
      return Err("semantic search context_packet_id does not match the verified context packet");
    }
    var candidates := offered;
    if ScopedLookup(grantMemory) {
      var inScope := Scoped(store, context);
      candidates := Sort(Order(context), Filter(o => Satisfies(grantMemory.value, o), inScope));
    }
    ghost var all := candidates;
    var total := |candidates|;
    var objectType, query := Meaningful(input.objectType), Meaningful(input.query);
    var ofType := (o: PacketObject) => objectType.Some? ==> o.objectType == objectType.value;
    var mentioning := (o: PacketObject) => query.Some? ==> Mentions(o, query.value);
    if objectType.Some? {
      candidates := Filter(ofType, candidates);
    } else {
      FilterAll(ofType, candidates);
    }
    assert candidates == Filter(ofType, all);
    if query.Some? {
      candidates := Filter(mentioning, candidates);
    } else {
      FilterAll(mentioning, candidates);
    }
    FilterTwice(ofType, mentioning, o => Wanted(input, o), all);
    return Ok(SearchResult(total, |candidates|, Take(ResultLimit(input), candidates)));
  }

  /**
    For the same question, what the packet answers is a first part of what a scoped
    lookup answers, and a scoped lookup never matches less.
   */
  lemma PacketSearchIsPrefix(store: seq<SemanticObject>, context: Json, memory: Json, input: SearchInput)
    ensures var bounded := SearchOver(PacketObjects(store, context, memory), input);
            var scoped := SearchOver(Candidates(store, context, memory), input);
            && bounded.results <= scoped.results
            && bounded.matched <= scoped.matched && bounded.beforeFilter <= scoped.beforeFilter
  {
    var offered, candidates := PacketObjects(store, context, memory), Candidates(store, context, memory);
    PacketIsPrefixOfCandidates(store, context, memory);
    FilterKeepsPrefix(o => Wanted(input, o), offered, candidates);
  }

  /**
    A scoped lookup returns only active objects in scope that the grant allows and the
    caller asked for, best first, and leaves one out only when the limit is reached.
   */
  lemma ScopedSearchIsSoundAndComplete(store: seq<SemanticObject>, context: Json, memory: Json, input: SearchInput, o: PacketObject)
    ensures var found := SearchOver(Candidates(store, context, memory), input);
            && Sorted(Order(context), found.results)
            && (o in found.results ==>
                  (exists i :: 0 <= i < |store| && store[i].status == "active" && store[i].body == o)
                  && MatchesScope(o.scopes, context) && Satisfies(memory, o) && Wanted(input, o))
            && ((exists i :: 0 <= i < |store| && store[i].status == "active" && store[i].body == o)
                && MatchesScope(o.scopes, context) && Satisfies(memory, o) && Wanted(input, o) ==>
                  o in found.results || |found.results| == ResultLimit(input))
  {
    var candidates := Candidates(store, context, memory);
    var matching := Filter(x => Wanted(input, x), candidates);
    var found := SearchOver(candidates, input);
    CandidatesExactly(store, context, memory, o);
    FilterElements(x => Wanted(input, x), candidates);
    OrderIsTotalPreorder(context);
    FilterCommutesWithSort(Order(context), x => Wanted(input, x), Filter(x => Satisfies(memory, x), Scoped(store, context)));
    SortSorted(Order(context), Filter(x => Wanted(input, x), Filter(x => Satisfies(memory, x), Scoped(store, context))));
    assert o in found.results ==> o in matching;
    if o in matching && o !in found.results {
      assert found.results != matching;
    }
  }

  lemma CandidatesExactly(store: seq<SemanticObject>, context: Json, memory: Json, o: PacketObject)
    ensures o in Candidates(store, context, memory) <==>
              && (exists i :: 0 <= i < |store| && store[i].status == "active" && store[i].body == o)
              && MatchesScope(o.scopes, context) && Satisfies(memory, o)
  {
    var inScope := Filter(InScope(context), store);
    var scoped := Scoped(store, context);
    SortKeepsElements(Order(context), Filter(x => Satisfies(memory, x), scoped));
    FilterElements(x => Satisfies(memory, x), scoped);
    FilterElements(InScope(context), store);
    if o in scoped {
      var i :| 0 <= i < |scoped| && scoped[i] == o;
      assert inScope[i] in inScope;
      assert inScope[i] in store;
      var k :| 0 <= k < |store| && store[k] == inScope[i];
      assert store[k].body == o;
    }
    if k: nat :| k < |store| && store[k].status == "active" && store[k].body == o && MatchesScope(o.scopes, context) {
      assert store[k] in store;
      assert store[k] in inScope;
      var i :| 0 <= i < |inScope| && inScope[i] == store[k];
      assert scoped[i] == o;
    }
  }
}
