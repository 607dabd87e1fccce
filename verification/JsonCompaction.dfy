/** Dropping nulls from JSON values, and the projection of context layers built on it. */
module JsonCompaction {
  import opened Wrappers
  import opened Json
  import opened Sequences

  function Compact(j: Json): Option<Json> {
    match j
    case Null => None
    case Obj(fields) => Some(Obj(map key | key in fields && Compact(fields[key]).Some? :: Compact(fields[key]).value))
    case Arr(items) => Some(Arr(CompactItems(items)))
    case _ => Some(j)
  }

  function CompactItems(items: seq<Json>): seq<Json> {
    if items == [] then []
    else
      var first := Compact(items[0]);
      (if first.Some? then [first.value] else []) + CompactItems(items[1..])
  }

  predicate NullFree(j: Json) {
    match j
    case Null => false
    case Obj(fields) => forall key :: key in fields ==> NullFree(fields[key])
    case Arr(items) => forall i :: 0 <= i < |items| ==> NullFree(items[i])
    case _ => true
  }

  lemma {:induction false} CompactHasNoNull(j: Json)
    ensures Compact(j).None? <==> j.Null?
    ensures Compact(j).Some? ==> NullFree(Compact(j).value)
  {
    match j {
      case Obj(fields) =>
        forall key | key in fields
          ensures Compact(fields[key]).Some? ==> NullFree(Compact(fields[key]).value)
        {
          CompactHasNoNull(fields[key]);
        }
      case Arr(items) => CompactItemsHaveNoNull(items);
      case _ =>
    }
  }

  lemma {:induction false} CompactItemsHaveNoNull(items: seq<Json>)
    ensures forall i :: 0 <= i < |CompactItems(items)| ==> NullFree(CompactItems(items)[i])
    ensures |CompactItems(items)| <= |items|
    ensures |CompactItems(items)| == |items| ==> forall i :: 0 <= i < |items| ==> !items[i].Null?
  {
    if items != [] {
      CompactHasNoNull(items[0]);
      CompactItemsHaveNoNull(items[1..]);
      if |CompactItems(items)| == |items| {
        assert |CompactItems(items[1..])| == |items[1..]|;
        assert forall i :: 0 < i < |items| ==> items[i] == items[1..][i - 1];
      }
    }
  }

  predicate NotNull(j: Json) {
    !j.Null?
  }

  function Compacted(j: Json): Json {
    if Compact(j).Some? then Compact(j).value else Null
  }

  lemma {:induction false} CompactItemsInOrder(items: seq<Json>)
    ensures CompactItems(items) == Map(Compacted, Filter(NotNull, items))
  {
    if items != [] {
      CompactHasNoNull(items[0]);
      CompactItemsInOrder(items[1..]);
    }
  }

  /** An object keeps the fields that are not null, an array its items that are not, in their order, each compacted. */
  lemma CompactKeepsStructure(j: Json)
    requires j.Obj? || j.Arr?
    ensures j.Obj? ==>
              && Compact(j).Some? && Compact(j).value.Obj?
              && forall key :: (key in Compact(j).value.fields <==> key in j.fields && !j.fields[key].Null?)
                               && (key in Compact(j).value.fields ==> Compact(j).value.fields[key] == Compacted(j.fields[key]))
    ensures j.Arr? ==> Compact(j) == Some(Arr(Map(Compacted, Filter(NotNull, j.items))))
  {
    if j.Arr? {
      CompactItemsInOrder(j.items);
    } else {
      forall key | key in j.fields
        ensures Compact(j.fields[key]).Some? <==> !j.fields[key].Null?
      {
        CompactHasNoNull(j.fields[key]);
      }
    }
  }

  lemma {:induction false} CompactKeepsNullFree(j: Json)
    requires NullFree(j)
    ensures Compact(j) == Some(j)
  {
    match j {
      case Obj(fields) =>
        forall key | key in fields
          ensures Compact(fields[key]) == Some(fields[key])
        {
          CompactKeepsNullFree(fields[key]);
        }
        var kept := map key | key in fields && Compact(fields[key]).Some? :: Compact(fields[key]).value;
        assert kept == fields;
      case Arr(items) => CompactKeepsNullFreeItems(items);
      case _ =>
    }
  }

  lemma {:induction false} CompactKeepsNullFreeItems(items: seq<Json>)
    requires forall i :: 0 <= i < |items| ==> NullFree(items[i])
    ensures CompactItems(items) == items
  {
    if items != [] {
      CompactKeepsNullFree(items[0]);
      CompactKeepsNullFreeItems(items[1..]);
    }
  }

  /** Compaction is a normal form: what it leaves alone is exactly what has no null at any depth. */
  lemma CompactIsNormalForm(j: Json)
    ensures Compact(j) == Some(j) <==> NullFree(j)
    ensures Compact(j).Some? ==> Compact(Compact(j).value) == Compact(j)
  {
    CompactHasNoNull(j);
    if NullFree(j) {
      CompactKeepsNullFree(j);
    }
    if Compact(j).Some? {
      CompactKeepsNullFree(Compact(j).value);
    }
  }

  // ----- leaves -----

  /** One move down a value: into a field, or into some item of an array. */
  datatype Move = Key(key: string) | Item

  predicate Scalar(j: Json) {
    !j.Obj? && !j.Arr?
  }

  /** Whether a leaf is found by following a path; array items are not told apart. */
  ghost predicate HasLeaf(j: Json, path: seq<Move>, leaf: Json)
    decreases path
  {
    if path == [] then j == leaf && Scalar(leaf)
    else
      match path[0]
      case Key(key) => j.Obj? && key in j.fields && HasLeaf(j.fields[key], path[1..], leaf)
      case Item => j.Arr? && exists i :: 0 <= i < |j.items| && HasLeaf(j.items[i], path[1..], leaf)
  }

  /** Compaction loses the null leaves and no others. */
  lemma {:induction false} CompactKeepsLeaves(j: Json, path: seq<Move>, leaf: Json)
    ensures (Compact(j).Some? && HasLeaf(Compact(j).value, path, leaf)) <==> HasLeaf(j, path, leaf) && !leaf.Null?
    decreases path, 0
  {
    if path == [] {
    } else {
      match path[0] {
        case Key(key) =>
          if j.Obj? && key in j.fields {
            CompactKeepsLeaves(j.fields[key], path[1..], leaf);
          }
        case Item =>
          if j.Arr? {
            CompactItemsKeepLeaves(j.items, path[1..], leaf);
          }
      }
    }
  }

  ghost predicate SomeItemHasLeaf(items: seq<Json>, path: seq<Move>, leaf: Json) {
    exists i :: 0 <= i < |items| && HasLeaf(items[i], path, leaf)
  }

  lemma SomeItemSplits(first: seq<Json>, rest: seq<Json>, path: seq<Move>, leaf: Json)
    ensures SomeItemHasLeaf(first + rest, path, leaf) <==> SomeItemHasLeaf(first, path, leaf) || SomeItemHasLeaf(rest, path, leaf)
  {
    var both := first + rest;
    if i: nat :| i < |first| && HasLeaf(first[i], path, leaf) {
      assert HasLeaf(both[i], path, leaf);
    }
    if i: nat :| i < |rest| && HasLeaf(rest[i], path, leaf) {
      assert HasLeaf(both[|first| + i], path, leaf);
    }
    if i: nat :| i < |both| && HasLeaf(both[i], path, leaf) {
      if i < |first| {
        assert HasLeaf(first[i], path, leaf);
      } else {
        assert HasLeaf(rest[i - |first|], path, leaf);
      }
    }
  }

  lemma {:induction false} CompactItemsKeepLeaves(items: seq<Json>, path: seq<Move>, leaf: Json)
    ensures SomeItemHasLeaf(CompactItems(items), path, leaf) <==> SomeItemHasLeaf(items, path, leaf) && !leaf.Null?
    decreases path, 1, |items|
  {
    if items != [] {
      CompactItemsKeepLeaves(items[1..], path, leaf);
      CompactKeepsLeaves(items[0], path, leaf);
      var first := Compact(items[0]);
      var kept := if first.Some? then [first.value] else [];
      SomeItemSplits(kept, CompactItems(items[1..]), path, leaf);
      SomeItemSplits([items[0]], items[1..], path, leaf);
      assert [items[0]] + items[1..] == items;
      if first.Some? {
        assert HasLeaf(kept[0], path, leaf) <==> SomeItemHasLeaf(kept, path, leaf);
      }
      assert HasLeaf([items[0]][0], path, leaf) <==> SomeItemHasLeaf([items[0]], path, leaf);
    }
  }

  // ----- context layers -----

  /** The fields that are never rendered, by layer. */
  function Withheld(layer: string): set<string> {
    if layer == "managed_runtime" then {"session_id", "agent_id"}
    else if layer == "execution_substrate" then {"tools"}
    else {}
  }

  function ProjectLayer(name: string, layer: Json): Json {
    var compact := Compact(layer);
    if compact.None? then EMPTY_OBJECT
    else if compact.value.Obj? then Obj(compact.value.fields - Withheld(name))
    else compact.value
  }

  function ProjectLayers(layers: Json): Json {
    if layers.Obj? then Obj(map name | name in layers.fields :: ProjectLayer(name, layers.fields[name])) else EMPTY_OBJECT
  }

  lemma ProjectLayerTwice(name: string, layer: Json)
    ensures NullFree(ProjectLayer(name, layer))
    ensures ProjectLayer(name, ProjectLayer(name, layer)) == ProjectLayer(name, layer)
  {
    CompactHasNoNull(layer);
    var once := ProjectLayer(name, layer);
    CompactKeepsNullFree(once);
    if once.Obj? {
      assert once.fields - Withheld(name) == once.fields;
    }
  }

  /** Projecting again changes nothing, and a projection holds no null. */
  lemma ProjectLayersTwice(layers: Json)
    ensures NullFree(ProjectLayers(layers))
    ensures ProjectLayers(ProjectLayers(layers)) == ProjectLayers(layers)
  {
    if layers.Obj? {
      var once := ProjectLayers(layers);
      forall name | name in layers.fields
        ensures NullFree(once.fields[name]) && ProjectLayer(name, once.fields[name]) == once.fields[name]
      {
        ProjectLayerTwice(name, layers.fields[name]);
      }
      assert ProjectLayers(once).fields == once.fields;
    }
  }

  /** A layer keeps exactly its non-null leaves outside the withheld fields. */
  lemma ProjectLayersKeepsLeaves(layers: Json, name: string, path: seq<Move>, leaf: Json)
    ensures HasLeaf(ProjectLayers(layers), [Key(name)] + path, leaf)
       <==> HasLeaf(layers, [Key(name)] + path, leaf) && !leaf.Null?
            && !(path != [] && path[0].Key? && path[0].key in Withheld(name))
  {
    assert ([Key(name)] + path)[1..] == path;
    if layers.Obj? && name in layers.fields {
      CompactKeepsLeaves(layers.fields[name], path, leaf);
    }
  }
}
