/** What place paths mean at run time: writes and reads in nested values, where
    each index step has picked some element. */
module PlaceMeaning {
  import opened Options
  import opened Places

  /** A value; `Moved` is what is left where a value was moved out. */
  datatype Value =
    | Atom(n: int)
    | Moved
    | Record(fields: map<string, Value>)
    | Tuple(parts: seq<Value>)
    | Array(elems: seq<Value>)

  /** A step with its index picked. */
  datatype Step = AtField(name: string) | AtPart(pos: nat) | AtElem(idx: nat)

  type Loc = seq<Step>

  predicate Picks(p: PlaceSeg, s: Step) {
    match p
    case Field(x) => s == AtField(x)
    case TupleIndex(i) => s == AtPart(i)
    case Index => s.AtElem?
  }

  /** The location is the path with some choice of indices. */
  predicate Instance(p: PlacePath, l: Loc) {
    |p| == |l| && forall i :: 0 <= i < |p| ==> Picks(p[i], l[i])
  }

  function Child(v: Value, s: Step): Option<Value> {
    match s
    case AtField(x) => if v.Record? && x in v.fields then Some(v.fields[x]) else None
    case AtPart(i) => if v.Tuple? && i < |v.parts| then Some(v.parts[i]) else None
    case AtElem(i) => if v.Array? && i < |v.elems| then Some(v.elems[i]) else None
  }

  function WithChild(v: Value, s: Step, x: Value): (w: Value)
    requires Child(v, s).Some?
    ensures Child(w, s) == Some(x) && forall t :: t != s ==> Child(w, t) == Child(v, t)
  {
    match s
    case AtField(f) => Record(v.fields[f := x])
    case AtPart(i) => Tuple(v.parts[i := x])
    case AtElem(i) => Array(v.elems[i := x])
  }

  function Get(v: Value, l: Loc): Option<Value> {
    if l == [] then Some(v)
    else match Child(v, l[0]) case None => None case Some(c) => Get(c, l[1..])
  }

  /** The value after a write, if the place exists. */
  function Set(v: Value, l: Loc, x: Value): Option<Value> {
    if l == [] then Some(x)
    else
      match Child(v, l[0])
      case None => None
      case Some(c) => match Set(c, l[1..], x) case None => None case Some(d) => Some(WithChild(v, l[0], d))
  }

  /** Nothing in the value was moved out. */
  ghost predicate Whole(v: Value) {
    forall l :: Get(v, l) != Some(Moved)
  }

  // ── Disjoint places ──────────────────────────────────────────────

  lemma {:induction false} DisjointSymmetric(a: PlacePath, b: PlacePath)
    ensures Disjoint(a, b) <==> Disjoint(b, a)
    decreases |a|
  {
    if a != [] && b != [] && a[0] == b[0] {
      DisjointSymmetric(a[1..], b[1..]);
    }
  }

  lemma {:induction false} DisjointExtends(a: PlacePath, b: PlacePath, c: PlacePath, d: PlacePath)
    requires Disjoint(a, b)
    ensures Disjoint(a + c, b + d)
    decreases |a|
  {
    if a[0] == b[0] {
      DisjointExtends(a[1..], b[1..], c, d);
      assert (a + c)[1..] == a[1..] + c && (b + d)[1..] == b[1..] + d;
    }
  }

  lemma InstanceTail(p: PlacePath, l: Loc)
    requires Instance(p, l) && p != []
    ensures Picks(p[0], l[0]) && Instance(p[1..], l[1..])
  {
  }

  /** One of the locations leads through the other. */
  predicate Overlap(l: Loc, k: Loc) {
    l <= k || k <= l
  }

  lemma OverlapTails(l: Loc, k: Loc)
    requires l != [] && k != []
    ensures Overlap(l, k) ==> Overlap(l[1..], k[1..])
  {
  }

  lemma {:induction false} DisjointApart(a: PlacePath, b: PlacePath, l: Loc, k: Loc)
    requires Disjoint(a, b) && Instance(a, l) && Instance(b, k)
    ensures !Overlap(l, k)
    decreases |a|
  {
    InstanceTail(a, l);
    InstanceTail(b, k);
    if a[0] == b[0] && l[0] == k[0] {
      OverlapTails(l, k);
      DisjointApart(a[1..], b[1..], l[1..], k[1..]);
    }
  }

  /** A write at a location changes no read at one that does not overlap it. */
  lemma {:induction false} ApartReads(v: Value, l: Loc, k: Loc, x: Value)
    requires !Overlap(l, k) && Set(v, l, x).Some?
    ensures Get(Set(v, l, x).value, k) == Get(v, k)
    decreases |l|
  {
    if l[0] == k[0] {
      assert !Overlap(l[1..], k[1..]) by {
        assert l == [l[0]] + l[1..] && k == [k[0]] + k[1..];
      }
      ApartReads(Child(v, l[0]).value, l[1..], k[1..], x);
    }
  }

  /** A write at a place changes no read at a disjoint place, whatever indices
      both use at run time. */
  lemma DisjointIndependent(a: PlacePath, b: PlacePath, v: Value, l: Loc, k: Loc, x: Value)
    requires Disjoint(a, b) && Instance(a, l) && Instance(b, k) && Set(v, l, x).Some?
    ensures Get(Set(v, l, x).value, k) == Get(v, k)
  {
    DisjointApart(a, b, l, k);
    ApartReads(v, l, k, x);
  }

  ghost predicate MayOverlap(a: PlacePath, b: PlacePath) {
    exists l, k :: Instance(a, l) && Instance(b, k) && Overlap(l, k)
  }

  /** Where the paths first differ, an index step stands against another kind. */
  predicate Mixed(a: PlacePath, b: PlacePath) {
    a != [] && b != [] && if a[0] == b[0] then Mixed(a[1..], b[1..]) else a[0].Index? || b[0].Index?
  }

  /** Every index picked as `e`. */
  function Pick(p: PlacePath, e: nat): (l: Loc)
    ensures Instance(p, l)
  {
    seq(|p|, i requires 0 <= i < |p| => match p[i] case Field(x) => AtField(x) case TupleIndex(j) =>
        AtPart(j) case Index => AtElem(e))
  }

  lemma {:induction false} NeitherPrefix(a: PlacePath, b: PlacePath)
    ensures Disjoint(a, b) || Mixed(a, b) || RebindCovers(a, b) || RebindCovers(b, a)
    decreases |a|
  {
    if a != [] && b != [] && a[0] == b[0] {
      NeitherPrefix(a[1..], b[1..]);
    }
  }

  lemma {:induction false} MixedApart(a: PlacePath, b: PlacePath, l: Loc, k: Loc)
    requires Mixed(a, b) && Instance(a, l) && Instance(b, k)
    ensures !Overlap(l, k)
    decreases |a|
  {
    InstanceTail(a, l);
    InstanceTail(b, k);
    if a[0] == b[0] && l[0] == k[0] {
      OverlapTails(l, k);
      MixedApart(a[1..], b[1..], l[1..], k[1..]);
    }
  }

  lemma {:induction false} MixedNotDisjoint(a: PlacePath, b: PlacePath)
    requires Mixed(a, b)
    ensures !Disjoint(a, b)
    decreases |a|
  {
    if a[0] == b[0] {
      MixedNotDisjoint(a[1..], b[1..]);
    }
  }

  /** For all paths: they count as disjoint exactly if no choice of indices makes
      one place contain the other, except that an index step against a field or
      tuple position is never called disjoint. */
  lemma DisjointExactly(a: PlacePath, b: PlacePath)
    ensures Disjoint(a, b) <==> !MayOverlap(a, b) && !Mixed(a, b)
  {
    if Disjoint(a, b) {
      forall l, k | Instance(a, l) && Instance(b, k)
        ensures !Overlap(l, k)
      {
        DisjointApart(a, b, l, k);
      }
      if Mixed(a, b) {
        MixedNotDisjoint(a, b);
      }
    } else if !Mixed(a, b) {
      NeitherPrefix(a, b);
      assert Instance(a, Pick(a, 0)) && Instance(b, Pick(b, 0)) && Overlap(Pick(a, 0), Pick(b, 0));
    }
  }

  // ── Shapes ───────────────────────────────────────────────────────

  /** Some value has both places. */
  ghost predicate Consistent(a: PlacePath, b: PlacePath) {
    exists v, l, k :: HasBoth(v, a, b, l, k)
  }

  ghost predicate HasBoth(v: Value, a: PlacePath, b: PlacePath, l: Loc, k: Loc) {
    Whole(v) && Instance(a, l) && Instance(b, k) && Get(v, l).Some? && Get(v, k).Some?
  }

  /** No value has two places that stand an index against another kind, if one of
      them has no index before. */
  lemma {:induction false} MixedInconsistent(v: Value, a: PlacePath, b: PlacePath, l: Loc, k: Loc)
    requires Mixed(a, b) && Instance(a, l) && Instance(b, k) && (forall s :: s in a ==> !s.Index?)
    ensures Get(v, l).None? || Get(v, k).None?
    decreases |a|
  {
    InstanceTail(a, l);
    InstanceTail(b, k);
    if a[0] == b[0] {
      if Child(v, l[0]).Some? {
        MixedInconsistent(Child(v, l[0]).value, a[1..], b[1..], l[1..], k[1..]);
      }
    }
  }

  // ── Rebinding ────────────────────────────────────────────────────

  /** Moving out of the consumed place and writing the reassigned one leaves a
      whole value, whatever the value was and whatever is written. */
  ghost predicate Restores(reassigned: PlacePath, consumed: PlacePath) {
    forall v, l, k, x :: HasBoth(v, reassigned, consumed, l, k) && Whole(x) ==> Restored(v, l, k, x)
  }

  ghost predicate Restored(v: Value, l: Loc, k: Loc, x: Value)
    requires Get(v, k).Some?
  {
    SetSome(v, k, Moved);
    var w := Set(v, k, Moved).value;
    Set(w, l, x).Some? && Whole(Set(w, l, x).value)
  }

  lemma {:induction false} SetSome(v: Value, l: Loc, x: Value)
    requires Get(v, l).Some?
    ensures Set(v, l, x).Some? && Get(Set(v, l, x).value, l) == Some(x)
    decreases |l|
  {
    if l != [] {
      SetSome(Child(v, l[0]).value, l[1..], x);
    }
  }

  /** A write at a location hides an earlier one inside it. */
  lemma {:induction false} OuterWins(v: Value, l: Loc, k: Loc, x: Value, y: Value)
    requires l <= k && Get(v, k).Some?
    ensures Set(v, k, y).Some? && Set(Set(v, k, y).value, l, x) == Set(v, l, x) && Set(v, l, x).Some?
    decreases |l|
  {
    SetSome(v, k, y);
    if l != [] {
      var c := Child(v, l[0]).value;
      assert l[1..] <= k[1..];
      OuterWins(c, l[1..], k[1..], x, y);
      var d := Set(c, k[1..], y).value;
      SameChildren(v, l[0], d, Set(c, l[1..], x).value);
    }
  }

  lemma SameChildren(v: Value, s: Step, d: Value, e: Value)
    requires Child(v, s).Some?
    ensures Child(WithChild(v, s, d), s) == Some(d) && WithChild(WithChild(v, s, d), s, e) == WithChild(v, s, e)
  {
    match s
    case AtField(f) => assert v.fields[f := d][f := e] == v.fields[f := e];
    case AtPart(i) => assert v.parts[i := d][i := e] == v.parts[i := e];
    case AtElem(i) => assert v.elems[i := d][i := e] == v.elems[i := e];
  }

  lemma {:induction false} GetThrough(v: Value, a: Loc, b: Loc)
    requires Get(v, a).Some?
    ensures Get(v, a + b) == Get(Get(v, a).value, b)
    decreases |a|
  {
    if a == [] {
      assert a + b == b;
    } else {
      assert (a + b)[1..] == a[1..] + b;
      GetThrough(Child(v, a[0]).value, a[1..], b);
    }
  }

  /** Writing a whole value into a whole value leaves it whole. */
  lemma {:induction false} SetWhole(v: Value, l: Loc, x: Value)
    requires Whole(v) && Whole(x) && Set(v, l, x).Some?
    ensures Whole(Set(v, l, x).value)
    decreases |l|
  {
    var u := Set(v, l, x).value;
    forall k
      ensures Get(u, k) != Some(Moved)
    {
      if l != [] && k != [] {
        var c := Child(v, l[0]).value;
        ChildWhole(v, l[0]);
        SetWhole(c, l[1..], x);
        if k[0] == l[0] {
          assert Get(u, k) == Get(Set(c, l[1..], x).value, k[1..]);
        } else {
          assert Get(u, k) == Get(v, k);
        }
      } else if l != [] {
        assert u != Moved;
      }
    }
  }

  lemma ChildWhole(v: Value, s: Step)
    requires Whole(v) && Child(v, s).Some?
    ensures Whole(Child(v, s).value)
  {
    var c := Child(v, s).value;
    forall l
      ensures Get(c, l) != Some(Moved)
    {
      assert ([s] + l)[1..] == l;
      assert Get(v, [s] + l) == Get(c, l);
    }
  }

  /** Without index steps a path has one location. */
  lemma SameInstance(r: PlacePath, c: PlacePath, l: Loc, k: Loc)
    requires RebindCovers(r, c) && (forall s :: s in r ==> !s.Index?) && Instance(r, l) && Instance(c, k)
    ensures l <= k
  {
    forall i | 0 <= i < |l|
      ensures l[i] == k[i]
    {
      assert r[i] in r;
    }
  }

  lemma {:induction false} NoWriteIntoMoved(v: Value, l: Loc, k: Loc, x: Value)
    requires k <= l && k != l && Get(v, k).Some?
    ensures Set(v, k, Moved).Some? && Set(Set(v, k, Moved).value, l, x).None?
    decreases |k|
  {
    SetSome(v, k, Moved);
    if k == [] {
      assert Set(v, k, Moved).value == Moved;
    } else {
      assert k[1..] <= l[1..] && k[1..] != l[1..] by {
        assert k == [k[0]] + k[1..] && l == [l[0]] + l[1..];
      }
      NoWriteIntoMoved(Child(v, k[0]).value, l[1..], k[1..], x);
    }
  }

  lemma CoveringRestores(r: PlacePath, c: PlacePath)
    requires RebindCovers(r, c) && (forall s :: s in r ==> !s.Index?)
    ensures Restores(r, c)
  {
    forall v, l, k, x | HasBoth(v, r, c, l, k) && Whole(x)
      ensures Restored(v, l, k, x)
    {
      SameInstance(r, c, l, k);
      OuterWins(v, l, k, x, Moved);
      SetWhole(v, l, x);
    }
  }

  /** A step picked tells the step of the path. */
  lemma PrefixCovers(r: PlacePath, c: PlacePath, l: Loc, k: Loc)
    requires Instance(r, l) && Instance(c, k) && l <= k
    ensures RebindCovers(r, c)
  {
    forall i | 0 <= i < |r|
      ensures r[i] == c[i]
    {
      assert l[i] == k[i] && Picks(r[i], l[i]) && Picks(c[i], k[i]);
    }
  }

  lemma NotRestored(r: PlacePath, c: PlacePath, v: Value, l: Loc, k: Loc)
    requires HasBoth(v, r, c, l, k) && !RebindCovers(r, c)
    ensures !Restores(r, c)
  {
    var x := Atom(0);
    assert Whole(x) by {
      forall m ensures Get(x, m) != Some(Moved) { }
    }
    SetSome(v, k, Moved);
    var w := Set(v, k, Moved).value;
    if l <= k {
      PrefixCovers(r, c, l, k);
      assert false;
    } else if k <= l {
      NoWriteIntoMoved(v, l, k, x);
    } else if Set(w, l, x).Some? {
      ApartReads(w, l, k, x);
    }
    assert !Restored(v, l, k, x);
  }

  // ── Indexed rebinds ──────────────────────────────────────────────

  /** A whole value along a path, with two elements at every index step. */
  function Along(p: PlacePath): Value {
    if p == [] then Atom(0)
    else
      var c := Along(p[1..]);
      match p[0]
      case Field(x) => Record(map[x := c])
      case TupleIndex(i) => Tuple(seq(i + 1, _ => c))
      case Index => Array([c, c])
  }

  lemma AlongChild(p: PlacePath, s: Step)
    requires p != [] && Child(Along(p), s).Some?
    ensures Child(Along(p), s).value == Along(p[1..])
  {
  }

  lemma {:induction false} AlongWhole(p: PlacePath, l: Loc)
    ensures Get(Along(p), l) != Some(Moved)
    decreases |l|
  {
    if l != [] && p != [] && Child(Along(p), l[0]).Some? {
      AlongChild(p, l[0]);
      AlongWhole(p[1..], l[1..]);
    }
  }

  /** It has the places of the path and of those before it, whichever element is picked. */
  lemma {:induction false} AlongHas(p: PlacePath, q: PlacePath, e: nat)
    requires q <= p && e < 2
    ensures Get(Along(p), Pick(q, e)).Some?
    decreases |q|
  {
    if q != [] {
      var l := Pick(q, e);
      assert q[1..] <= p[1..] && l[1..] == Pick(q[1..], e);
      AlongChild(p, l[0]);
      AlongHas(p[1..], q[1..], e);
    }
  }

  /** The element moved out is not the one written. */
  lemma PicksApart(r: PlacePath, c: PlacePath, i: nat)
    requires r <= c && i < |r| && r[i].Index?
    ensures !Overlap(Pick(r, 0), Pick(c, 1))
  {
    assert Pick(r, 0)[i] != Pick(c, 1)[i];
  }

  lemma IndexedLeavesHole(r: PlacePath, c: PlacePath, i: nat)
    requires RebindCovers(r, c) && i < |r| && r[i].Index?
    ensures !Restores(r, c)
  {
    assert r <= c;
    var v, l, k, x := Along(c), Pick(r, 0), Pick(c, 1), Atom(0);
    assert HasBoth(v, r, c, l, k) by {
      forall m
        ensures Get(v, m) != Some(Moved)
      {
        AlongWhole(c, m);
      }
      AlongHas(c, r, 0);
      AlongHas(c, c, 1);
    }
    PicksApart(r, c, i);
    SetSome(v, k, Moved);
    var w := Set(v, k, Moved).value;
    if Set(w, l, x).Some? {
      ApartReads(w, l, k, x);
    }
    assert !Restored(v, l, k, x);
    forall m
      ensures Get(x, m) != Some(Moved)
    {
    }
  }

  /** A rebind that covers restores the consumed place exactly if it has no index step:
      with one the write may go to another element than was moved out. */
  lemma CoveringRestoresIff(r: PlacePath, c: PlacePath)
    requires RebindCovers(r, c)
    ensures Restores(r, c) <==> forall s :: s in r ==> !s.Index?
  {
    if s :| s in r && s.Index? {
      var i :| 0 <= i < |r| && r[i] == s;
      IndexedLeavesHole(r, c, i);
    } else {
      CoveringRestores(r, c);
    }
  }

  /** For any places that some value has together: the write restores all that was moved
      out exactly if the rebind covers the consume and has no index step. */
  lemma RebindExactly(r: PlacePath, c: PlacePath)
    requires Consistent(r, c)
    ensures Restores(r, c) <==> RebindCovers(r, c) && forall s :: s in r ==> !s.Index?
  {
    if RebindCovers(r, c) {
      CoveringRestoresIff(r, c);
    } else {
      var v, l, k :| HasBoth(v, r, c, l, k);
      NotRestored(r, c, v, l, k);
    }
  }

  lemma IndexRebindLeavesHole()
    ensures RebindCovers([Index], [Index]) && !Restores([Index], [Index])
  {
    assert [Index][0] in [Index];
    CoveringRestoresIff([Index], [Index]);
  }
}
