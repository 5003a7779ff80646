/** Free-form JSON values in the heap: nested maps and slices, and when their nesting is finite. */
module HeapValues {
  import opened Wrappers

  datatype Scalar = Null | Bool(b: bool) | Number(text: string) | Text(s: string)

  /** A Go slice: a window of a backing array that other slices may share. */
  datatype Slice = Slice(items: array?<Value>, lo: nat, hi: nat)
  {
    predicate Fits() {
      items != null ==> lo <= hi <= items.Length
    }

    function Len(): nat
      requires Fits()
    {
      if items == null then 0 else hi - lo
    }

    function At(i: nat): Value
      requires Fits() && i < Len()
      reads items
    {
      items[lo + i]
    }
  }

  /** A Go value of type `any` as JSON decoding produces it; maps and slices are references. */
  datatype Value = ScalarValue(s: Scalar) | MapValue(node: MapNode?) | SliceValue(slice: Slice)

  class MapNode {
    var entries: map<string, Value>

    constructor ()
      ensures entries == map[]
    {
      entries := map[];
    }
  }

  /**
   The finite unfolding of a value in the heap, with the objects met on the way. A value has one
   exactly when its nesting is acyclic (`AcyclicUnfolds`, `UnfoldsAcyclic`); a node reached twice appears twice.
   `repr` holds the objects of the unfolding.
   */
  datatype Tree =
    | Leaf(s: Scalar)
    | NilMap
    | NilSlice
    | Branch(node: MapNode, kids: map<string, Tree>, repr: set<object>)
    | Row(items: array<Value>, lo: nat, cells: seq<Tree>, repr: set<object>)
  {
    function Nodes(): set<object> {
      if Branch? || Row? then repr else {}
    }
  }

  /** What a tree looks like when object identity is forgotten. */
  datatype Shape =
    | ScalarShape(s: Scalar) | NilMapShape | NilSliceShape
    | MapShape(entries: map<string, Shape>) | SliceShape(items: seq<Shape>)

  ghost function ShapeOf(t: Tree): Shape {
    match t
    case Leaf(s) => ScalarShape(s)
    case NilMap => NilMapShape
    case NilSlice => NilSliceShape
    case Branch(_, kids, _) => MapShape(map k | k in kids :: ShapeOf(kids[k]))
    case Row(_, _, cells, _) => SliceShape(seq(|cells|, i requires 0 <= i < |cells| => ShapeOf(cells[i])))
  }

  /** `t` is an unfolding of `v` in the current heap. */
  ghost predicate Unfolds(v: Value, t: Tree)
    reads t.Nodes()
    decreases t
  {
    match t
    case Leaf(s) => v == ScalarValue(s)
    case NilMap => v == MapValue(null)
    case NilSlice => v.SliceValue? && v.slice.items == null
    case Branch(node, kids, repr) =>
      && v == MapValue(node) && node in repr
      && (forall k | k in kids :: kids[k].Nodes() <= repr)
      && node.entries.Keys == kids.Keys
      && forall k | k in kids :: Unfolds(node.entries[k], kids[k])
    case Row(items, lo, cells, repr) =>
      && lo + |cells| <= items.Length
      && v == SliceValue(Slice(items, lo, lo + |cells|)) && items in repr
      && (forall i | 0 <= i < |cells| :: cells[i].Nodes() <= repr)
      && forall i | 0 <= i < |cells| :: Unfolds(items[lo + i], cells[i])
  }

  /** The shape of a value is a function of the heap: all its unfoldings look alike. */
  lemma {:induction false} ShapeUnique(v: Value, t: Tree, u: Tree)
    requires Unfolds(v, t) && Unfolds(v, u)
    ensures ShapeOf(t) == ShapeOf(u)
    decreases t
  {
    match t {
      case Branch(node, kids, _) =>
        forall k | k in kids
          ensures ShapeOf(kids[k]) == ShapeOf(u.kids[k])
        {
          ShapeUnique(node.entries[k], kids[k], u.kids[k]);
        }
      case Row(items, lo, cells, _) =>
        forall i | 0 <= i < |cells|
          ensures ShapeOf(cells[i]) == ShapeOf(u.cells[i])
        {
          ShapeUnique(items[lo + i], cells[i], u.cells[i]);
        }
      case _ =>
    }
  }

  // ----- finite nesting -----

  /** `v` nests at most `n` maps and slices. */
  ghost predicate Within(v: Value, n: nat)
    reads *
    decreases n
  {
    match v
    case ScalarValue(_) => true
    case MapValue(node) =>
      node != null ==> n > 0 && forall k | k in node.entries :: Within(node.entries[k], n - 1)
    case SliceValue(s) =>
      s.items != null ==>
        n > 0 && s.Fits() && forall i | 0 <= i < s.Len() :: Within(s.At(i), n - 1)
  }

  /** Bounded nesting is enough for an unfolding. */
  lemma {:induction false} BoundedUnfolds(v: Value, n: nat) returns (t: Tree)
    requires Within(v, n)
    ensures Unfolds(v, t)
    decreases n, 1
  {
    match v {
      case ScalarValue(s) => t := Leaf(s);
      case MapValue(node) =>
        t := NilMap;
        if node != null {
          t := MapUnfolds(node, n);
        }
      case SliceValue(s) =>
        t := NilSlice;
        if s.items != null {
          t := SliceUnfolds(s, n);
        }
    }
  }

  lemma {:induction false} MapUnfolds(node: MapNode, n: nat) returns (t: Tree)
    requires Within(MapValue(node), n)
    ensures Unfolds(MapValue(node), t)
    decreases n, 0
  {
    var kids: map<string, Tree> := map[];
    var repr: set<object> := {node};
    var keys := node.entries.Keys;
    while keys != {}
      invariant keys <= node.entries.Keys && kids.Keys == node.entries.Keys - keys
      invariant node in repr && forall k | k in kids :: kids[k].Nodes() <= repr
      invariant forall k | k in kids :: Unfolds(node.entries[k], kids[k])
    {
      var k :| k in keys;
      keys := keys - {k};
      var kid := BoundedUnfolds(node.entries[k], n - 1);
      kids, repr := kids[k := kid], repr + kid.Nodes();
    }
    t := Branch(node, kids, repr);
  }

  lemma {:induction false} SliceUnfolds(s: Slice, n: nat) returns (t: Tree)
    requires s.items != null && Within(SliceValue(s), n)
    ensures Unfolds(SliceValue(s), t)
    decreases n, 0
  {
    var cells: seq<Tree> := [];
    var repr: set<object> := {s.items};
    for i := 0 to s.Len()
      invariant |cells| == i && s.items in repr
      invariant forall j | 0 <= j < i :: cells[j].Nodes() <= repr
      invariant forall j | 0 <= j < i :: Unfolds(s.At(j), cells[j])
    {
      var cell := BoundedUnfolds(s.At(i), n - 1);
      cells, repr := cells + [cell], repr + cell.Nodes();
    }
    t := Row(s.items, s.lo, cells, repr);
  }

  // ----- reaching one value from another -----

  datatype Step = Field(k: string) | Index(i: nat)

  /** Following keys and indices from `v` reaches `w`. */
  ghost predicate Leads(v: Value, path: seq<Step>, w: Value)
    reads *
    decreases |path|
  {
    if path == [] then v == w
    else match v
      case ScalarValue(_) => false
      case MapValue(node) =>
        && node != null && path[0].Field? && path[0].k in node.entries
        && Leads(node.entries[path[0].k], path[1..], w)
      case SliceValue(s) =>
        && s.Fits() && path[0].Index? && path[0].i < s.Len()
        && Leads(s.At(path[0].i), path[1..], w)
  }

  lemma {:induction false} LeadsOn(a: Value, p: seq<Step>, b: Value, q: seq<Step>, c: Value)
    requires Leads(a, p, b) && Leads(b, q, c)
    ensures Leads(a, p + q, c)
    decreases |p|
  {
    if p == [] {
      assert p + q == q;
    } else {
      assert (p + q)[1..] == p[1..] + q && (p + q)[0] == p[0];
      match a {
        case ScalarValue(_) =>
        case MapValue(node) => LeadsOn(node.entries[p[0].k], p[1..], b, q, c);
        case SliceValue(s) => LeadsOn(s.At(p[0].i), p[1..], b, q, c);
      }
    }
  }

  lemma KidSmaller(t: Tree, k: string)
    requires t.Branch? && k in t.kids
    ensures ShapeOf(t.kids[k]) < ShapeOf(t)
  {
    assert ShapeOf(t).entries[k] == ShapeOf(t.kids[k]);
  }

  lemma CellSmaller(t: Tree, i: nat)
    requires t.Row? && i < |t.cells|
    ensures ShapeOf(t.cells[i]) < ShapeOf(t)
  {
    assert ShapeOf(t).items[i] == ShapeOf(t.cells[i]);
  }

  // ----- what can be seen of a value -----

  /** What one place of a value shows: its scalar, the keys of its map, or the length of its slice. */
  datatype Look =
    | SeesScalar(s: Scalar) | SeesNilMap | SeesMap(keys: set<string>) | SeesNilSlice | SeesSlice(length: nat)

  /** What is at the end of a path, followed through the heap; nothing if the path leads nowhere. */
  ghost function Glimpse(v: Value, path: seq<Step>): Option<Look>
    reads *
    decreases |path|
  {
    match v
    case ScalarValue(s) => if path == [] then Some(SeesScalar(s)) else None
    case MapValue(node) =>
      if path == [] then Some(if node == null then SeesNilMap else SeesMap(node.entries.Keys))
      else if node != null && path[0].Field? && path[0].k in node.entries
      then Glimpse(node.entries[path[0].k], path[1..])
      else None
    case SliceValue(s) =>
      if path == [] then Some(if s.items == null || !s.Fits() then SeesNilSlice else SeesSlice(s.Len()))
      else if s.Fits() && path[0].Index? && path[0].i < s.Len() then Glimpse(s.At(path[0].i), path[1..])
      else None
  }

  /** The same on a shape. */
  ghost function ShapeGlimpse(t: Shape, path: seq<Step>): Option<Look>
    decreases |path|
  {
    match t
    case ScalarShape(s) => if path == [] then Some(SeesScalar(s)) else None
    case NilMapShape => if path == [] then Some(SeesNilMap) else None
    case NilSliceShape => if path == [] then Some(SeesNilSlice) else None
    case MapShape(entries) =>
      if path == [] then Some(SeesMap(entries.Keys))
      else if path[0].Field? && path[0].k in entries then ShapeGlimpse(entries[path[0].k], path[1..])
      else None
    case SliceShape(items) =>
      if path == [] then Some(SeesSlice(|items|))
      else if path[0].Index? && path[0].i < |items| then ShapeGlimpse(items[path[0].i], path[1..])
      else None
  }

  lemma BranchLook(t: Tree, k: string)
    requires t.Branch?
    ensures ShapeOf(t).entries.Keys == t.kids.Keys
    ensures k in t.kids ==> ShapeOf(t).entries[k] == ShapeOf(t.kids[k])
  {
  }

  lemma RowLook(t: Tree, i: nat)
    requires t.Row?
    ensures |ShapeOf(t).items| == |t.cells|
    ensures i < |t.cells| ==> ShapeOf(t).items[i] == ShapeOf(t.cells[i])
  {
  }

  /** A shape shows what the heap shows, at every path. */
  lemma {:induction false} ShapeShows(v: Value, t: Tree, path: seq<Step>)
    requires Unfolds(v, t)
    ensures Glimpse(v, path) == ShapeGlimpse(ShapeOf(t), path)
    decreases |path|
  {
    match t {
      case Branch(node, kids, _) =>
        BranchLook(t, if path != [] && path[0].Field? then path[0].k else "");
        if path != [] && path[0].Field? && path[0].k in kids {
          ShapeShows(node.entries[path[0].k], kids[path[0].k], path[1..]);
        }
      case Row(items, lo, cells, _) =>
        RowLook(t, if path != [] && path[0].Index? then path[0].i else 0);
        if path != [] && path[0].Index? && path[0].i < |cells| {
          ShapeShows(items[lo + path[0].i], cells[path[0].i], path[1..]);
        }
      case _ =>
    }
  }

  lemma ShapeShowsAll(v: Value, t: Tree)
    requires Unfolds(v, t)
    ensures forall path :: Glimpse(v, path) == ShapeGlimpse(ShapeOf(t), path)
  {
    forall path
      ensures Glimpse(v, path) == ShapeGlimpse(ShapeOf(t), path)
    {
      ShapeShows(v, t, path);
    }
  }

  /** A glimpse is what the value at the end of the path shows of itself. */
  lemma {:induction false} GlimpseIsLead(v: Value, path: seq<Step>, s: Scalar)
    ensures Glimpse(v, path) == Some(SeesScalar(s)) <==> Leads(v, path, ScalarValue(s))
    decreases |path|
  {
    if path != [] {
      match v {
        case ScalarValue(_) =>
        case MapValue(node) =>
          if node != null && path[0].Field? && path[0].k in node.entries {
            GlimpseIsLead(node.entries[path[0].k], path[1..], s);
          }
        case SliceValue(slice) =>
          if slice.Fits() && path[0].Index? && path[0].i < slice.Len() {
            GlimpseIsLead(slice.At(path[0].i), path[1..], s);
          }
      }
    }
  }

  /**
   Values whose unfoldings have one shape are structurally equal: every path shows the same in
   both, and in particular reaches the same scalars.
   */
  lemma EqualShapesShowTheSame(v: Value, t: Tree, r: Value, u: Tree, path: seq<Step>, s: Scalar)
    requires Unfolds(v, t) && Unfolds(r, u) && ShapeOf(t) == ShapeOf(u)
    ensures Glimpse(v, path) == Glimpse(r, path)
    ensures Leads(v, path, ScalarValue(s)) <==> Leads(r, path, ScalarValue(s))
  {
    ShapeShows(v, t, path);
    ShapeShows(r, u, path);
    GlimpseIsLead(v, path, s);
    GlimpseIsLead(r, path, s);
  }

  /** What a path reaches unfolds to a part of the unfolding it started from. */
  lemma {:induction false} LeadsInside(v: Value, t: Tree, path: seq<Step>, w: Value) returns (s: Tree)
    requires Unfolds(v, t) && Leads(v, path, w)
    ensures Unfolds(w, s)
    ensures path == [] ==> s == t
    ensures path != [] ==> ShapeOf(s) < ShapeOf(t)
    decreases |path|
  {
    if path == [] {
      return t;
    }
    match v {
      case ScalarValue(_) =>
      case MapValue(node) =>
        var k := path[0].k;
        s := LeadsInside(node.entries[k], t.kids[k], path[1..], w);
        KidSmaller(t, k);
      case SliceValue(slice) =>
        var i := path[0].i;
        s := LeadsInside(slice.At(i), t.cells[i], path[1..], w);
        CellSmaller(t, i);
    }
  }

  /** A value on a cycle has no unfolding. */
  lemma CycleNeverUnfolds(v: Value, path: seq<Step>, t: Tree)
    requires path != [] && Leads(v, path, v)
    ensures !Unfolds(v, t)
  {
    if Unfolds(v, t) {
      var s := LeadsInside(v, t, path, v);
      ShapeUnique(v, s, t);
    }
  }

  // ----- acyclic values, exactly -----

  /** A finite part of the heap that nothing inside it leads out of. */
  ghost predicate Closed(region: set<Value>)
    reads *
  {
    forall v | v in region ::
      && (v.MapValue? && v.node != null ==> forall k | k in v.node.entries :: v.node.entries[k] in region)
      && (v.SliceValue? ==> v.slice.Fits() && forall i | 0 <= i < v.slice.Len() :: v.slice.At(i) in region)
  }

  /** `w` is reached from `v` by at least one step. */
  ghost predicate Below(v: Value, w: Value)
    reads *
  {
    exists path :: path != [] && Leads(v, path, w)
  }

  /** Nothing reached from `v` is reached again from itself. */
  ghost predicate Acyclic(v: Value, region: set<Value>)
    reads *
  {
    forall w | w in region && (w == v || Below(v, w)) :: !Below(w, w)
  }

  lemma OneStep(v: Value, step: Step, c: Value)
    requires Leads(v, [step], c)
    ensures Below(v, c)
    ensures forall a | Below(a, v) :: Below(a, c)
  {
    forall a | Below(a, v)
      ensures Below(a, c)
    {
      var path :| path != [] && Leads(a, path, v);
      LeadsOn(a, path, v, [step], c);
    }
  }

  lemma OneMore(v: Value, above: set<Value>, region: set<Value>)
    requires above <= region && v in region && v !in above
    ensures |region - (above + {v})| == |region - above| - 1
  {
    assert region - (above + {v}) == (region - above) - {v};
  }

  /** Values met on the way down are not met again, so the region bounds the nesting. */
  lemma {:induction false} DepthBound(root: Value, v: Value, above: set<Value>, region: set<Value>)
    requires Closed(region) && Acyclic(root, region)
    requires v in region && (v == root || Below(root, v))
    requires above <= region && forall a | a in above :: Below(a, v)
    ensures Within(v, |region - above|)
    decreases |region - above|
  {
    assert v !in above;
    var above' := above + {v};
    OneMore(v, above, region);
    match v {
      case ScalarValue(_) =>
      case MapValue(node) =>
        if node != null {
          forall k | k in node.entries
            ensures Within(node.entries[k], |region - above'|)
          {
            OneStep(v, Field(k), node.entries[k]);
            DepthBound(root, node.entries[k], above', region);
          }
        }
      case SliceValue(s) =>
        if s.items != null {
          forall i | 0 <= i < s.Len()
            ensures Within(s.At(i), |region - above'|)
          {
            OneStep(v, Index(i), s.At(i));
            DepthBound(root, s.At(i), above', region);
          }
        }
    }
  }

  /** Every acyclic value of a finite heap has an unfolding, nested at most as deep as the region is large. */
  lemma AcyclicUnfolds(v: Value, region: set<Value>) returns (t: Tree)
    requires Closed(region) && v in region && Acyclic(v, region)
    ensures Within(v, |region|) && Unfolds(v, t)
  {
    assert region - {} == region;
    DepthBound(v, v, {}, region);
    t := BoundedUnfolds(v, |region|);
  }

  /** And only acyclic values have one. */
  lemma UnfoldsAcyclic(v: Value, t: Tree, region: set<Value>)
    requires Unfolds(v, t)
    ensures Acyclic(v, region)
  {
    forall w | w in region && (w == v || Below(v, w))
      ensures !Below(w, w)
    {
      var path :| Leads(v, path, w) by {
        if w == v {
          assert Leads(v, [], w);
        }
      }
      var s := LeadsInside(v, t, path, w);
      if Below(w, w) {
        var cycle :| cycle != [] && Leads(w, cycle, w);
        CycleNeverUnfolds(w, cycle, s);
      }
    }
  }

  /** A value of a finite heap nests finitely deep exactly when it is acyclic. */
  lemma FiniteExactly(v: Value, region: set<Value>)
    requires Closed(region) && v in region
    ensures (exists n :: Within(v, n)) <==> Acyclic(v, region)
  {
    if Acyclic(v, region) {
      var t := AcyclicUnfolds(v, region);
    }
    if n :| Within(v, n) {
      var t := BoundedUnfolds(v, n);
      UnfoldsAcyclic(v, t, region);
      assert Within(v, n) && Acyclic(v, region);
    }
  }
}
