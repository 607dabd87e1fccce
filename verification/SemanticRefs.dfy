/** The semantic objects a tool call's arguments refer to. */
module SemanticRefs {
  import opened Wrappers
  import opened Json
  import opened Text
  import opened JsonCompaction

  type Id = nat

  /** Reads an object id out of a text, if it is one. */
  type ParseId = string -> Option<Id>

  predicate RefKey(hint: Option<string>) {
    hint.Some? &&
    var key := Lower(Trim(hint.value));
    || Contains(key, "semantic_object")
    || key == "object_id" || key == "object_ids" || key == "semantic_ref" || key == "semantic_refs"
  }

  function Refs(parse: ParseId, j: Json, hint: Option<string>): set<Id> {
    match j
    case Str(s) => if RefKey(hint) && parse(s).Some? then {parse(s).value} else {}
    case Arr(items) => set i, id | 0 <= i < |items| && id in Refs(parse, items[i], hint) :: id
    case Obj(fields) => set key, id | key in fields && id in Refs(parse, fields[key], Some(key)) :: id
    case _ => {}
  }

  function RefsOfFirst(parse: ParseId, items: seq<Json>, n: nat, hint: Option<string>): set<Id>
    requires n <= |items|
  {
    set i, id | 0 <= i < n && id in Refs(parse, items[i], hint) :: id
  }

  function RefsExcept(parse: ParseId, fields: map<string, Json>, left: set<string>): set<Id> {
    set key, id | key in fields && key !in left && id in Refs(parse, fields[key], Some(key)) :: id
  }

  lemma OneMoreItem(parse: ParseId, items: seq<Json>, n: nat, hint: Option<string>)
    requires n < |items|
    ensures RefsOfFirst(parse, items, n + 1, hint) == RefsOfFirst(parse, items, n, hint) + Refs(parse, items[n], hint)
  {
  }

  lemma OneMoreField(parse: ParseId, fields: map<string, Json>, left: set<string>, key: string)
    requires key in left && key in fields
    ensures RefsExcept(parse, fields, left - {key}) == RefsExcept(parse, fields, left) + Refs(parse, fields[key], Some(key))
  {
  }

  lemma NothingLeft(parse: ParseId, j: Json, hint: Option<string>)
    ensures j.Arr? ==> RefsOfFirst(parse, j.items, |j.items|, hint) == Refs(parse, j, hint)
    ensures j.Obj? ==> RefsExcept(parse, j.fields, {}) == Refs(parse, j, hint)
    ensures j.Obj? ==> RefsExcept(parse, j.fields, j.fields.Keys) == {}
  {
  }

  /** The collector, which adds to a set as it walks the value. */
  method Collect(parse: ParseId, j: Json, hint: Option<string>, found: set<Id>) returns (ids: set<Id>)
    ensures ids == found + Refs(parse, j, hint)
    decreases j
  {
    ids := found;
    NothingLeft(parse, j, hint);
    match j {
      case Str(s) =>
        if RefKey(hint) && parse(s).Some? {
          ids := ids + {parse(s).value};
        }
      case Arr(items) =>
        for i := 0 to |items|
          invariant ids == found + RefsOfFirst(parse, items, i, hint)
        {
          OneMoreItem(parse, items, i, hint);
          ids := Collect(parse, items[i], hint, ids);
        }
      case Obj(fields) =>
        var left := fields.Keys;
        while left != {}
          invariant left <= fields.Keys
          invariant ids == found + RefsExcept(parse, fields, left)
        {
          var key :| key in left;
          OneMoreField(parse, fields, left, key);
          left := left - {key};
          ids := Collect(parse, fields[key], Some(key), ids);
        }
      case _ =>
    }
  }

  /** The last key on the way to a leaf, looking through arrays. */
  function NearestKey(path: seq<Move>, hint: Option<string>): Option<string> {
    if path == [] then hint
    else NearestKey(path[1..], if path[0].Key? then Some(path[0].key) else hint)
  }

  ghost predicate RefersTo(parse: ParseId, j: Json, hint: Option<string>, path: seq<Move>, s: string, id: Id) {
    HasLeaf(j, path, Str(s)) && RefKey(NearestKey(path, hint)) && parse(s) == Some(id)
  }

  lemma {:induction false} ReferredIsCollected(parse: ParseId, j: Json, hint: Option<string>, path: seq<Move>, s: string, id: Id)
    requires RefersTo(parse, j, hint, path, s, id)
    ensures id in Refs(parse, j, hint)
    decreases path
  {
    if path != [] {
      match path[0] {
        case Key(key) => ReferredIsCollected(parse, j.fields[key], Some(key), path[1..], s, id);
        case Item =>
          var i :| 0 <= i < |j.items| && HasLeaf(j.items[i], path[1..], Str(s));
          ReferredIsCollected(parse, j.items[i], hint, path[1..], s, id);
      }
    }
  }

  lemma {:induction false} CollectedIsReferred(parse: ParseId, j: Json, hint: Option<string>, id: Id)
    returns (path: seq<Move>, s: string)
    requires id in Refs(parse, j, hint)
    ensures RefersTo(parse, j, hint, path, s, id)
  {
    match j {
      case Str(text) => path, s := [], text;
      case Arr(items) =>
        var i :| 0 <= i < |items| && id in Refs(parse, items[i], hint);
        var rest;
        rest, s := CollectedIsReferred(parse, items[i], hint, id);
        path := [Item] + rest;
        assert path[1..] == rest;
      case Obj(fields) =>
        var key :| key in fields && id in Refs(parse, fields[key], Some(key));
        var rest;
        rest, s := CollectedIsReferred(parse, fields[key], Some(key), id);
        path := [Key(key)] + rest;
        assert path[1..] == rest;
    }
  }

  /** The collected ids are exactly those of the texts whose nearest enclosing key names a semantic reference. */
  lemma RefsExactly(parse: ParseId, j: Json, id: Id)
    ensures id in Refs(parse, j, None) <==> exists path, s :: RefersTo(parse, j, None, path, s, id)
  {
    if id in Refs(parse, j, None) {
      var path, s := CollectedIsReferred(parse, j, None, id);
    }
    if path, s :| RefersTo(parse, j, None, path, s, id) {
      ReferredIsCollected(parse, j, None, path, s, id);
    }
  }

  /** Nulls carry no reference, so compacting the arguments first collects the same ids. */
  lemma CompactionKeepsRefs(parse: ParseId, j: Json)
    requires Compact(j).Some?
    ensures Refs(parse, Compact(j).value, None) == Refs(parse, j, None)
  {
    forall id
      ensures id in Refs(parse, Compact(j).value, None) <==> id in Refs(parse, j, None)
    {
      RefsExactly(parse, j, id);
      RefsExactly(parse, Compact(j).value, id);
      if path, s :| RefersTo(parse, j, None, path, s, id) {
        CompactKeepsLeaves(j, path, Str(s));
        assert RefersTo(parse, Compact(j).value, None, path, s, id);
      }
      if path, s :| RefersTo(parse, Compact(j).value, None, path, s, id) {
        CompactKeepsLeaves(j, path, Str(s));
        assert RefersTo(parse, j, None, path, s, id);
      }
    }
  }
}
