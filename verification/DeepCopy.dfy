/** Deep copy of free-form values and of a pack's spec (api/v1alpha1/zz_deepcopy.go:55-119). */
module DeepCopy {
  import opened Manifest
  import opened HeapValues

  // ----- the copy -----

  /** `deepCopyValue`. */
  method DeepCopyValue(v: Value, ghost t: Tree) returns (r: Value, ghost u: Tree)
    requires Unfolds(v, t)
    ensures Unfolds(r, u) && ShapeOf(u) == ShapeOf(t)
    ensures fresh(u.Nodes()) && t.Nodes() !! u.Nodes()
    ensures forall path :: Glimpse(r, path) == old(Glimpse(v, path))
    decreases t, 2
  {
    match v {
      case MapValue(node) =>
        var copy;
        copy, u := DeepCopyMap(node, t);
        r := MapValue(copy);
      case SliceValue(slice) =>
        var copy;
        copy, u := DeepCopySlice(slice, t);
        r := SliceValue(copy);
      case ScalarValue(s) =>
        r, u := v, t;
    }
  }

  /** Entries copied so far: unfolded by trees inside `region`, shaped like the originals. */
  ghost predicate Copied(entries: map<string, Value>, kids: map<string, Tree>, from: map<string, Tree>,
                         region: set<object>)
    reads region
  {
    && kids.Keys == entries.Keys && kids.Keys <= from.Keys
    && (forall k | k in kids :: kids[k].Nodes() <= region)
    && (forall k | k in kids :: Unfolds(entries[k], kids[k]))
    && (forall k | k in kids :: ShapeOf(kids[k]) == ShapeOf(from[k]))
  }

  lemma CopiedOne(entries: map<string, Value>, kids: map<string, Tree>, from: map<string, Tree>, region: set<object>,
                  k: string, value: Value, kid: Tree)
    requires Copied(entries, kids, from, region) && k in from
    requires Unfolds(value, kid) && ShapeOf(kid) == ShapeOf(from[k])
    ensures Copied(entries[k := value], kids[k := kid], from, region + kid.Nodes())
  {
  }

  /** Copies the value of one entry. */
  method CopyValue(entries: map<string, Value>, k: string, value: Value, ghost t: Tree,
                   ghost kids: map<string, Tree>, ghost from: map<string, Tree>, ghost region: set<object>)
    returns (value': Value, ghost kid: Tree)
    requires Unfolds(value, t) && k in from && from[k] == t
    requires Copied(entries, kids, from, region)
    ensures fresh(kid.Nodes())
    ensures Copied(entries[k := value'], kids[k := kid], from, region + kid.Nodes())
    decreases t, 3
  {
    value', kid := DeepCopyValue(value, t);
    CopiedOne(entries, kids, from, region, k, value', kid);
  }

  /** One turn of the map loop: copy the value and store it in the new map. */
  method CopyEntry(copy: MapNode, k: string, value: Value, ghost t: Tree,
                   ghost kids: map<string, Tree>, ghost from: map<string, Tree>, ghost region: set<object>)
    returns (ghost kids': map<string, Tree>, ghost region': set<object>)
    requires Unfolds(value, t) && k in from && from[k] == t
    requires copy !in region && Copied(copy.entries, kids, from, region)
    modifies copy
    ensures region <= region' && fresh(region' - region) && copy !in region'
    ensures copy.entries.Keys == old(copy.entries.Keys) + {k}
    ensures Copied(copy.entries, kids', from, region')
    decreases t, 4
  {
    var value';
    ghost var kid;
    value', kid := CopyValue(copy.entries, k, value, t, kids, from, region);
    kids', region' := kids[k := kid], region + kid.Nodes();
    StoreEntry(copy, k, value', kids', from, region');
  }

  method StoreEntry(copy: MapNode, k: string, value: Value,
                    ghost kids: map<string, Tree>, ghost from: map<string, Tree>, ghost region: set<object>)
    requires copy !in region && Copied(copy.entries[k := value], kids, from, region)
    modifies copy
    ensures copy.entries.Keys == old(copy.entries.Keys) + {k}
    ensures Copied(copy.entries, kids, from, region)
  {
    copy.entries := copy.entries[k := value];
  }

  lemma CopiedShape(node: MapNode, kids: map<string, Tree>, t: Tree, repr: set<object>)
    requires t.Branch? && kids.Keys == t.kids.Keys
    requires forall k | k in kids :: ShapeOf(kids[k]) == ShapeOf(t.kids[k])
    ensures ShapeOf(Branch(node, kids, repr)) == ShapeOf(t)
  {
  }

  lemma CopiedUnfolds(node: MapNode, kids: map<string, Tree>, from: map<string, Tree>, region: set<object>)
    requires Copied(node.entries, kids, from, region)
    ensures Unfolds(MapValue(node), Branch(node, kids, region + {node}))
  {
  }

  /** `deepCopyMap`. */
  method DeepCopyMap(source: MapNode?, ghost t: Tree) returns (out: MapNode?, ghost u: Tree)
    requires Unfolds(MapValue(source), t)
    ensures Unfolds(MapValue(out), u) && ShapeOf(u) == ShapeOf(t)
    ensures fresh(u.Nodes()) && t.Nodes() !! u.Nodes()
    ensures out == null <==> source == null
    ensures forall path :: Glimpse(MapValue(out), path) == old(Glimpse(MapValue(source), path))
    decreases t, 1
  {
    ShapeShowsAll(MapValue(source), t);
    if source == null {
      out, u := null, NilMap;
    } else {
      out, u := CopyEntries(source, t);
    }
    ShapeShowsAll(MapValue(out), u);
  }

  /** The map loop: entries are copied in whatever order the map yields them. */
  method CopyEntries(source: MapNode, ghost t: Tree) returns (out: MapNode, ghost u: Tree)
    requires Unfolds(MapValue(source), t)
    ensures Unfolds(MapValue(out), u) && ShapeOf(u) == ShapeOf(t)
    ensures fresh(u.Nodes()) && t.Nodes() !! u.Nodes()
    decreases t, 0
  {
    var copy := new MapNode();
    ghost var kids: map<string, Tree> := map[];
    ghost var region: set<object> := {};
    var keys := source.entries.Keys;
    while keys != {}
      invariant keys <= source.entries.Keys
      invariant copy.entries.Keys == source.entries.Keys - keys
      invariant fresh(region) && copy !in region
      invariant Copied(copy.entries, kids, t.kids, region)
    {
      var k :| k in keys;
      keys := keys - {k};
      kids, region := CopyEntry(copy, k, source.entries[k], t.kids[k], kids, t.kids, region);
    }
    CopiedUnfolds(copy, kids, t.kids, region);
    CopiedShape(copy, kids, t, region + {copy});
    out, u := copy, Branch(copy, kids, region + {copy});
  }

  /** The first `n` elements copied so far, like `Copied`. */
  ghost predicate CopiedCells(copy: array<Value>, cells: seq<Tree>, n: nat, from: seq<Tree>, region: set<object>)
    reads copy, region
  {
    && |cells| == n && n <= copy.Length && n <= |from|
    && (forall j | 0 <= j < n :: cells[j].Nodes() <= region)
    && (forall j | 0 <= j < n :: Unfolds(copy[j], cells[j]))
    && (forall j | 0 <= j < n :: ShapeOf(cells[j]) == ShapeOf(from[j]))
  }

  /** One turn of the slice loop: copy the value and store it in the new array. */
  method CopyCell(copy: array<Value>, i: nat, value: Value, ghost t: Tree,
                  ghost cells: seq<Tree>, ghost from: seq<Tree>, ghost repr: set<object>)
    returns (ghost cells': seq<Tree>, ghost repr': set<object>)
    requires i < copy.Length && i < |from| && from[i] == t && Unfolds(value, t)
    requires copy in repr && CopiedCells(copy, cells, i, from, repr - {copy})
    modifies copy
    ensures repr <= repr' && fresh(repr' - repr)
    ensures CopiedCells(copy, cells', i + 1, from, repr' - {copy})
    decreases t, 3
  {
    var value';
    ghost var cell;
    value', cell := DeepCopyValue(value, t);
    copy[i] := value';
    cells', repr' := cells + [cell], repr + cell.Nodes();
  }

  /** `deepCopySlice`: a fresh backing array for the window, whatever else shares the old one. */
  method DeepCopySlice(source: Slice, ghost t: Tree) returns (out: Slice, ghost u: Tree)
    requires Unfolds(SliceValue(source), t)
    ensures Unfolds(SliceValue(out), u) && ShapeOf(u) == ShapeOf(t)
    ensures fresh(u.Nodes()) && t.Nodes() !! u.Nodes()
    ensures out.items == null <==> source.items == null
    ensures forall path :: Glimpse(SliceValue(out), path) == old(Glimpse(SliceValue(source), path))
    decreases t, 1
  {
    ShapeShowsAll(SliceValue(source), t);
    if source.items == null {
      out, u := Slice(null, 0, 0), NilSlice;
    } else {
      out, u := CopyCells(source, t);
    }
    ShapeShowsAll(SliceValue(out), u);
  }

  /** The slice loop. */
  method CopyCells(source: Slice, ghost t: Tree) returns (out: Slice, ghost u: Tree)
    requires source.items != null && Unfolds(SliceValue(source), t)
    ensures Unfolds(SliceValue(out), u) && ShapeOf(u) == ShapeOf(t) && out.items != null
    ensures fresh(u.Nodes()) && t.Nodes() !! u.Nodes()
    decreases t, 0
  {
    var copy := new Value[source.Len()](_ => ScalarValue(Null));
    ghost var cells: seq<Tree> := [];
    ghost var repr: set<object> := {copy};
    for i := 0 to source.Len()
      invariant fresh(repr) && copy in repr && repr !! t.Nodes()
      invariant CopiedCells(copy, cells, i, t.cells, repr - {copy})
    {
      cells, repr := CopyCell(copy, i, source.At(i), t.cells[i], cells, t.cells, repr);
    }
    out, u := Slice(copy, 0, copy.Length), Row(copy, 0, cells, repr);
  }

  // ----- PackSpec -----

  const BLANK_REF := AzureRef("", "", "", "", "", "")

  class AzureNode {
    var ref: AzureRef

    constructor (ref: AzureRef)
      ensures this.ref == ref
    {
      this.ref := ref;
    }
  }

  class SpecNode {
    var target: Target
    var namespace: string
    var azure: AzureNode?
    var manifest: MapNode?

    /**
     `DeepCopyInto`: a shallow copy whose two pointers are then replaced by copies. Copying a spec
     onto itself reads the pipeline reference only after it has been replaced by a blank one.
     */
    method DeepCopyInto(out: SpecNode, ghost t: Tree) returns (ghost u: Tree)
      requires Unfolds(MapValue(manifest), t)
      modifies out
      ensures out.target == old(target) && out.namespace == old(namespace)
      ensures out.azure == null <==> old(azure) == null
      ensures old(azure) != null ==> fresh(out.azure)
      ensures old(azure) != null ==> out.azure.ref == if out == this then BLANK_REF else old(azure.ref)
      ensures Unfolds(MapValue(out.manifest), u) && ShapeOf(u) == ShapeOf(t)
      ensures fresh(u.Nodes()) && t.Nodes() !! u.Nodes()
      ensures forall path :: Glimpse(MapValue(out.manifest), path) == old(Glimpse(MapValue(manifest), path))
    {
      ShapeShowsAll(MapValue(manifest), t);
      ghost var inner := Without(t, out);
      WithoutUnfolds(MapValue(manifest), t, out);
      WithoutShape(t, out);
      ShallowCopy(out);
      CopyAzure(out);
      u := CopyManifest(out, inner);
      ShapeShowsAll(MapValue(out.manifest), u);
    }

    method ShallowCopy(out: SpecNode)
      modifies out
      ensures out.target == old(target) && out.namespace == old(namespace)
      ensures out.azure == old(azure) && out.manifest == old(manifest)
    {
      out.target, out.namespace, out.azure, out.manifest := target, namespace, azure, manifest;
    }

    method CopyAzure(out: SpecNode)
      modifies out`azure
      ensures azure == null <==> old(azure) == null
      ensures out != this && old(azure) == null ==> out.azure == old(out.azure)
      ensures old(azure) != null ==> out.azure != null && fresh(out.azure)
      ensures old(azure) != null ==> out.azure.ref == if out == this then BLANK_REF else old(azure.ref)
    {
      if azure != null {
        out.azure := new AzureNode(BLANK_REF);
        out.azure.ref := azure.ref;
      }
    }

    method CopyManifest(out: SpecNode, ghost t: Tree) returns (ghost u: Tree)
      requires Unfolds(MapValue(manifest), t)
      modifies out`manifest
      ensures Unfolds(MapValue(out.manifest), u) && ShapeOf(u) == ShapeOf(t) && fresh(u.Nodes())
    {
      var copy;
      copy, u := DeepCopyMap(manifest, t);
      out.manifest := copy;
    }
  }

  /** The same unfolding with one object left out of its footprints. */
  ghost function Without(t: Tree, o: object): (r: Tree)
    ensures r.Nodes() == t.Nodes() - {o}
  {
    match t
    case Branch(node, kids, repr) => Branch(node, map k | k in kids :: Without(kids[k], o), repr - {o})
    case Row(items, lo, cells, repr) =>
      Row(items, lo, seq(|cells|, i requires 0 <= i < |cells| => Without(cells[i], o)), repr - {o})
    case _ => t
  }

  /** A spec is no part of a free-form value, so its object can be left out. */
  lemma {:induction false} WithoutUnfolds(v: Value, t: Tree, o: SpecNode)
    requires Unfolds(v, t)
    ensures Unfolds(v, Without(t, o))
    decreases t
  {
    match t {
      case Branch(node, kids, _) =>
        forall k | k in kids
          ensures Unfolds(node.entries[k], Without(kids[k], o))
        {
          WithoutUnfolds(node.entries[k], kids[k], o);
        }
      case Row(items, lo, cells, _) =>
        forall i | 0 <= i < |cells|
          ensures Unfolds(items[lo + i], Without(cells[i], o))
        {
          WithoutUnfolds(items[lo + i], cells[i], o);
        }
      case _ =>
    }
  }

  lemma {:induction false} WithoutShape(t: Tree, o: object)
    ensures ShapeOf(Without(t, o)) == ShapeOf(t)
    decreases t
  {
    match t {
      case Branch(_, kids, _) =>
        forall k | k in kids
          ensures ShapeOf(Without(kids[k], o)) == ShapeOf(kids[k])
        {
          WithoutShape(kids[k], o);
        }
      case Row(_, _, cells, _) =>
        forall i | 0 <= i < |cells|
          ensures ShapeOf(Without(cells[i], o)) == ShapeOf(cells[i])
        {
          WithoutShape(cells[i], o);
        }
      case _ =>
    }
  }

  // ----- independence -----

  /** Writes that miss the objects of an unfolding leave the value as it was. */
  twostate lemma WritesElsewhere(v: Value, t: Tree)
    requires old(Unfolds(v, t))
    requires forall o | o in t.Nodes() :: unchanged(o)
    ensures Unfolds(v, t)
  {
  }

  /**
   Independence: a copy and its original have disjoint objects, so writes confined to the objects
   of one side leave the other side as it was.
   */
  twostate lemma Independent(v: Value, t: Tree, r: Value, u: Tree)
    requires old(Unfolds(v, t)) && old(Unfolds(r, u)) && t.Nodes() !! u.Nodes()
    ensures (forall o: object | old(allocated(o)) && o !in u.Nodes() :: unchanged(o)) ==> Unfolds(v, t)
    ensures (forall o: object | old(allocated(o)) && o !in t.Nodes() :: unchanged(o)) ==> Unfolds(r, u)
  {
  }
}
