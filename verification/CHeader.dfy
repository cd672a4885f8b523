/** The order of definitions in the generated C header, `src/cheader.rs`: what a
    definition needs by value comes before it, and nothing comes twice. */
module CHeader {
  import opened Options
  import opened KeyOrder

  // ── Structs ──────────────────────────────────────────────────────

  /** A type as written: a path with type arguments, or any other form. */
  datatype Type = Path(segments: seq<string>, args: seq<Type>) | OtherType

  datatype Field = Field(name: string, ty: Type)

  type Structs = map<string, seq<Field>>

  /** The field holds the struct `dep` by value, and `dep` is to be defined. */
  predicate Holds(f: Field, dep: string, structs: Structs, needed: set<string>) {
    f.ty.Path? && f.ty.segments == [dep] && dep in structs && dep in needed
  }

  ghost predicate Needs(a: string, b: string, structs: Structs, needed: set<string>) {
    a in structs && exists f :: f in structs[a] && Holds(f, b, structs, needed)
  }

  ghost predicate Chain(p: seq<string>, structs: Structs, needed: set<string>) {
    forall i :: 0 <= i < |p| - 1 ==> Needs(p[i], p[i + 1], structs, needed)
  }

  /** No struct holds itself by value, directly or through others. */
  ghost predicate Acyclic(structs: Structs, needed: set<string>) {
    forall p :: |p| > 1 && Chain(p, structs, needed) ==> p[0] != p[|p| - 1]
  }

  /** Each struct once, and after every struct it holds. */
  ghost predicate Ordered(order: seq<string>, structs: Structs, needed: set<string>) {
    && (forall i, j :: 0 <= i < j < |order| ==> order[i] != order[j])
    && (forall i, d :: 0 <= i < |order| && Needs(order[i], d, structs, needed) ==> d in order[..i])
  }

  /** `b` is `a`, or `a` holds it through others. */
  ghost predicate Within(a: string, b: string, structs: Structs, needed: set<string>) {
    exists p :: |p| > 0 && Chain(p, structs, needed) && p[0] == a && p[|p| - 1] == b
  }

  lemma WithinSelf(a: string, structs: Structs, needed: set<string>)
    ensures Within(a, a, structs, needed)
  {
    var p := [a];
    assert |p| > 0 && Chain(p, structs, needed) && p[0] == a && p[|p| - 1] == a;
  }

  lemma WithinStep(a: string, d: string, b: string, structs: Structs, needed: set<string>)
    requires Needs(a, d, structs, needed) && Within(d, b, structs, needed)
    ensures Within(a, b, structs, needed)
    ensures Acyclic(structs, needed) ==> a != b
  {
    var p :| |p| > 0 && Chain(p, structs, needed) && p[0] == d && p[|p| - 1] == b;
    var q := [a] + p;
    forall i | 0 <= i < |q| - 1
      ensures Needs(q[i], q[i + 1], structs, needed)
    {
      if i > 0 {
        assert Needs(p[i - 1], p[i - 1 + 1], structs, needed);
      }
    }
    assert |q| > 1 && Chain(q, structs, needed) && q[0] == a && q[|q| - 1] == b;
  }

  /** The recursion is at `name`, below the structs of `stack`. */
  ghost predicate Below(stack: seq<string>, name: string, structs: Structs, needed: set<string>) {
    Chain(stack + [name], structs, needed) && forall i :: 0 <= i < |stack| ==> stack[i] in structs
  }

  ghost function Names(stack: seq<string>): set<string> {
    set x | x in stack
  }

  lemma Deeper(stack: seq<string>, name: string, dep: string, structs: Structs, needed: set<string>)
    requires Below(stack, name, structs, needed) && Needs(name, dep, structs, needed) && Acyclic(structs, needed)
    ensures Below(stack + [name], dep, structs, needed)
    ensures |structs.Keys - Names(stack + [name])| < |structs.Keys - Names(stack)|
  {
    hide Needs, Acyclic;
    ChainMore(stack + [name], dep, structs, needed);
    NotBelowItself(stack, name, structs, needed);
    assert name in structs by { NeedsKnown(name, dep, structs, needed); }
    assert Names(stack + [name]) == Names(stack) + {name};
    Smaller(structs.Keys - Names(stack + [name]), structs.Keys - Names(stack), name);
  }

  lemma NeedsKnown(a: string, b: string, structs: Structs, needed: set<string>)
    requires Needs(a, b, structs, needed)
    ensures a in structs && b in structs && b in needed
  {
  }

  lemma ChainMore(p: seq<string>, dep: string, structs: Structs, needed: set<string>)
    requires p != [] && Chain(p, structs, needed) && Needs(p[|p| - 1], dep, structs, needed)
    ensures Chain(p + [dep], structs, needed)
  {
    hide Needs;
    var q := p + [dep];
    forall i | 0 <= i < |q| - 1
      ensures Needs(q[i], q[i + 1], structs, needed)
    {
      if i < |p| - 1 {
        assert Needs(p[i], p[i + 1], structs, needed);
      }
    }
  }

  lemma NotBelowItself(stack: seq<string>, name: string, structs: Structs, needed: set<string>)
    requires Below(stack, name, structs, needed) && Acyclic(structs, needed)
    ensures name !in stack
  {
    if name in stack {
      var i :| 0 <= i < |stack| && stack[i] == name;
      Cycle(stack + [name], i, structs, needed);
    }
  }

  lemma Cycle(p: seq<string>, i: nat, structs: Structs, needed: set<string>)
    requires Chain(p, structs, needed) && i < |p| - 1 && p[i] == p[|p| - 1]
    ensures !Acyclic(structs, needed)
  {
    hide Needs;
    var c := p[i..];
    forall k | 0 <= k < |c| - 1
      ensures Needs(c[k], c[k + 1], structs, needed)
    {
      assert Needs(p[i + k], p[i + k + 1], structs, needed);
    }
    assert |c| > 1 && Chain(c, structs, needed) && c[0] == c[|c| - 1];
  }

  lemma Smaller(a: set<string>, b: set<string>, x: string)
    requires x in b && a == b - {x}
    ensures a < b && |a| < |b|
  {
  }

  /** `emit_struct`: a depth-first walk that defines a struct behind what it holds. */
  method EmitStruct(name: string, structs: Structs, needed: set<string>, emitted0: set<string>, order0: seq<string>,
          ghost stack: seq<string>)
    returns (emitted: set<string>, order: seq<string>)
    requires Acyclic(structs, needed) && Below(stack, name, structs, needed)
    requires Ordered(order0, structs, needed) && (forall x :: x in emitted0 <==> x in order0)
    ensures Ordered(order, structs, needed) && (forall x :: x in emitted <==> x in order) && order0 <= order
    ensures name in structs ==> name in emitted
    ensures forall x :: x in emitted && x !in emitted0 ==>
        Within(name, x, structs, needed) && x in structs && (x == name || x in needed)
    decreases |structs.Keys - Names(stack)|
  {
    hide Ordered, Acyclic, Below, Within, Holds, Names;
    emitted, order := emitted0, order0;
    if name in emitted || name !in structs {
      return;
    }
    WithinSelf(name, structs, needed);
    var fields := structs[name];
    for i := 0 to |fields|
      invariant Ordered(order, structs, needed) && (forall x :: x in emitted <==> x in order) && order0 <= order
      invariant Inside(name, emitted, emitted0, structs, needed)
      invariant forall j, d :: 0 <= j < i && Holds(fields[j], d, structs, needed) ==> d in emitted
    {
      var ty := fields[i].ty;
      HoldsOnly(fields[i], structs, needed);
      if ty.Path? && |ty.segments| == 1 && ty.segments[0] in structs && ty.segments[0] in needed {
        var dep := ty.segments[0];
        assert Holds(fields[i], dep, structs, needed) && fields[i] in structs[name];
        Deeper(stack, name, dep, structs, needed);
        ghost var before := emitted;
        emitted, order := EmitStruct(dep, structs, needed, emitted, order, stack + [name]);
        InsideMore(name, dep, emitted, before, emitted0, structs, needed);
      }
    }
    NameLast(name, structs, needed, order);
    emitted := emitted + {name};
    order := order + [name];
  }

  /** What was emitted since is held by `name`, and is not `name`. */
  ghost predicate Inside(name: string, emitted: set<string>, emitted0: set<string>, structs: Structs,
          needed: set<string>) {
    emitted0 <= emitted &&
    forall x :: x in emitted && x !in emitted0 ==>
        Within(name, x, structs, needed) && x in structs && x in needed && x != name
  }

  lemma InsideMore(name: string, dep: string, emitted: set<string>, before: set<string>, emitted0: set<string>,
          structs: Structs, needed: set<string>)
    requires Acyclic(structs, needed) && Needs(name, dep, structs, needed) &&
        Inside(name, before, emitted0, structs, needed) && before <= emitted
    requires forall x :: x in emitted && x !in before ==>
        Within(dep, x, structs, needed) && x in structs && (x == dep || x in needed)
    ensures Inside(name, emitted, emitted0, structs, needed)
  {
    hide Acyclic, Within;
    NeedsKnown(name, dep, structs, needed);
    forall x | x in emitted && x !in before
      ensures Within(name, x, structs, needed) && x != name
    {
      WithinStep(name, dep, x, structs, needed);
    }
  }

  /** A field holds at most the struct its type names. */
  lemma HoldsOnly(f: Field, structs: Structs, needed: set<string>)
    ensures forall d :: Holds(f, d, structs, needed) ==>
        f.ty.Path? && f.ty.segments == [d] && d in structs && d in needed
    ensures f.ty.Path? && |f.ty.segments| == 1 && f.ty.segments[0] in structs && f.ty.segments[0] in needed ==>
      Holds(f, f.ty.segments[0], structs, needed)
  {
    if f.ty.Path? && |f.ty.segments| == 1 {
      assert f.ty.segments == [f.ty.segments[0]];
    }
  }

  lemma NameLast(name: string, structs: Structs, needed: set<string>, order: seq<string>)
    requires Ordered(order, structs, needed) && name !in order
    requires forall d :: Needs(name, d, structs, needed) ==> d in order
    ensures Ordered(order + [name], structs, needed)
  {
    var s := order + [name];
    forall i, d | 0 <= i < |s| && Needs(s[i], d, structs, needed)
      ensures d in s[..i]
    {
      if i < |order| {
        assert s[..i] == order[..i];
      } else {
        assert s[..i] == order;
      }
    }
  }

  /** The struct part of `emit_c_header`: exactly the needed structs that have a
      definition, each once and behind every needed struct it holds by value. */
  method EmitStructs(structs: Structs, needed: set<string>) returns (order: seq<string>)
    requires Acyclic(structs, needed)
    ensures Ordered(order, structs, needed)
    ensures forall x :: x in order <==> x in structs && x in needed
  {
    order := [];
    var emitted: set<string> := {};
    var names := Sorted(needed);
    for i := 0 to |names|
      invariant Ordered(order, structs, needed) && (forall x :: x in emitted <==> x in order)
      invariant forall x :: x in emitted ==> x in structs && x in needed
      invariant forall j :: 0 <= j < i && names[j] in structs ==> names[j] in emitted
    {
      assert names[i] in names;
      assert [] + [names[i]] == [names[i]];
      emitted, order := EmitStruct(names[i], structs, needed, emitted, order, []);
    }
    forall x | x in structs && x in needed
      ensures x in order
    {
      assert x in names;
    }
  }

  // ── When the recursion ends ──────────────────────────────────────

  /** The recursion of `emit_struct` with fuel for its depth: the structs emitted, or None
      if the fuel runs out. */
  function Emit(name: string, structs: Structs, needed: set<string>, emitted: set<string>,
          fuel: nat): Option<set<string>>
    decreases fuel, 0
  {
    if name in emitted || name !in structs then Some(emitted)
    else if fuel == 0 then None
    else match EmitFields(structs[name], structs, needed, emitted, fuel - 1) case None => None case Some(e) =>
        Some(e + {name})
  }

  function EmitFields(fields: seq<Field>, structs: Structs, needed: set<string>, emitted: set<string>,
          fuel: nat): Option<set<string>>
    decreases fuel, 1, |fields|
  {
    if fields == [] then Some(emitted)
    else
      var ty := fields[0].ty;
      if ty.Path? && |ty.segments| == 1 && ty.segments[0] in structs && ty.segments[0] in needed then
        match Emit(ty.segments[0], structs, needed, emitted, fuel)
        case None => None
        case Some(e) => EmitFields(fields[1..], structs, needed, e, fuel)
      else EmitFields(fields[1..], structs, needed, emitted, fuel)
  }

  function EmitAll(names: seq<string>, structs: Structs, needed: set<string>, emitted: set<string>,
          fuel: nat): Option<set<string>> {
    if names == [] then Some(emitted)
    else
      match Emit(names[0], structs, needed, emitted, fuel)
      case None => None
      case Some(e) => EmitAll(names[1..], structs, needed, e, fuel)
  }

  /** From the struct one comes to one that holds itself. */
  ghost predicate Loops(name: string, structs: Structs, needed: set<string>) {
    exists p, i: nat :: Lasso(p, i, structs, needed) && p[0] == name
  }

  ghost predicate Lasso(p: seq<string>, i: nat, structs: Structs, needed: set<string>) {
    i < |p| - 1 && Chain(p, structs, needed) && p[i] == p[|p| - 1]
  }

  lemma LoopsStep(name: string, structs: Structs, needed: set<string>) returns (d: string)
    requires Loops(name, structs, needed)
    ensures Needs(name, d, structs, needed) && Loops(d, structs, needed)
  {
    hide Needs;
    var p, i: nat :| Lasso(p, i, structs, needed) && p[0] == name;
    assert Needs(p[0], p[0 + 1], structs, needed);
    d := p[1];
    var tail := p[1..];
    assert Chain(tail, structs, needed) by {
      forall k | 0 <= k < |tail| - 1
        ensures Needs(tail[k], tail[k + 1], structs, needed)
      {
        assert Needs(p[k + 1], p[k + 1 + 1], structs, needed);
      }
    }
    if i > 0 {
      assert Lasso(tail, i - 1, structs, needed);
    } else {
      ChainMore(tail, d, structs, needed);
      assert Lasso(tail + [d], 0, structs, needed);
    }
  }

  lemma LoopsBack(name: string, d: string, structs: Structs, needed: set<string>)
    requires Needs(name, d, structs, needed) && Loops(d, structs, needed)
    ensures Loops(name, structs, needed)
  {
    hide Needs;
    var p, i: nat :| Lasso(p, i, structs, needed) && p[0] == d;
    var q := [name] + p;
    forall k | 0 <= k < |q| - 1
      ensures Needs(q[k], q[k + 1], structs, needed)
    {
      if k > 0 {
        assert Needs(p[k - 1], p[k - 1 + 1], structs, needed);
      }
    }
    assert Lasso(q, i + 1, structs, needed);
  }

  ghost predicate Clean(emitted: set<string>, structs: Structs, needed: set<string>) {
    forall x :: x in emitted ==> !Loops(x, structs, needed)
  }

  ghost predicate CleanFields(fields: seq<Field>, structs: Structs, needed: set<string>) {
    forall f, d :: f in fields && Holds(f, d, structs, needed) ==> !Loops(d, structs, needed)
  }

  lemma {:induction false} CleanEmit(name: string, structs: Structs, needed: set<string>, emitted: set<string>,
          fuel: nat)
    requires Clean(emitted, structs, needed) && !Loops(name, structs, needed)
    ensures var r := Emit(name, structs, needed, emitted, fuel); r.Some? ==> Clean(r.value, structs, needed)
    decreases fuel, 0
  {
    hide Loops, Holds;
    if name !in emitted && name in structs && fuel > 0 {
      forall f, d | f in structs[name] && Holds(f, d, structs, needed)
        ensures !Loops(d, structs, needed)
      {
        if Loops(d, structs, needed) {
          LoopsBack(name, d, structs, needed);
        }
      }
      CleanEmitFields(structs[name], structs, needed, emitted, fuel - 1);
    }
  }

  lemma {:induction false} CleanEmitFields(fields: seq<Field>, structs: Structs, needed: set<string>,
          emitted: set<string>, fuel: nat)
    requires Clean(emitted, structs, needed) && CleanFields(fields, structs, needed)
    ensures var r := EmitFields(fields, structs, needed, emitted, fuel); r.Some? ==> Clean(r.value, structs, needed)
    decreases fuel, 1, |fields|
  {
    hide Loops, Holds, Emit, Clean;
    if fields != [] {
      var f := fields[0];
      HoldsOnly(f, structs, needed);
      if f.ty.Path? && |f.ty.segments| == 1 && f.ty.segments[0] in structs && f.ty.segments[0] in needed {
        assert f in fields && Holds(f, f.ty.segments[0], structs, needed);
        CleanEmit(f.ty.segments[0], structs, needed, emitted, fuel);
        var r := Emit(f.ty.segments[0], structs, needed, emitted, fuel);
        if r.Some? {
          CleanEmitFields(fields[1..], structs, needed, r.value, fuel);
        }
      } else {
        CleanEmitFields(fields[1..], structs, needed, emitted, fuel);
      }
    }
  }

  /** Below a struct that comes to a cycle no fuel is enough. */
  lemma {:induction false} Endless(name: string, structs: Structs, needed: set<string>, emitted: set<string>, fuel: nat)
    requires Clean(emitted, structs, needed) && Loops(name, structs, needed)
    ensures Emit(name, structs, needed, emitted, fuel) == None
    decreases fuel, 0
  {
    var d := LoopsStep(name, structs, needed);
    hide Loops, Holds;
    NeedsKnown(name, d, structs, needed);
    if fuel > 0 {
      EndlessFields(structs[name], d, structs, needed, emitted, fuel - 1);
    }
  }

  lemma {:induction false} EndlessFields(fields: seq<Field>, d: string, structs: Structs, needed: set<string>,
          emitted: set<string>, fuel: nat)
    requires Clean(emitted, structs, needed) && Loops(d, structs, needed)
    requires exists f :: f in fields && Holds(f, d, structs, needed)
    ensures EmitFields(fields, structs, needed, emitted, fuel) == None
    decreases fuel, 1, |fields|
  {
    hide Loops, Holds, Emit, Clean;
    var f :| f in fields && Holds(f, d, structs, needed);
    var g := fields[0];
    HoldsOnly(f, structs, needed);
    HoldsOnly(g, structs, needed);
    if g.ty.Path? && |g.ty.segments| == 1 && g.ty.segments[0] in structs && g.ty.segments[0] in needed {
      var dep := g.ty.segments[0];
      if Loops(dep, structs, needed) {
        Endless(dep, structs, needed, emitted, fuel);
      } else {
        assert f != g;
        CleanEmit(dep, structs, needed, emitted, fuel);
        var r := Emit(dep, structs, needed, emitted, fuel);
        if r.Some? {
          assert f in fields[1..];
          EndlessFields(fields[1..], d, structs, needed, r.value, fuel);
        }
      }
    } else {
      assert f in fields[1..];
      EndlessFields(fields[1..], d, structs, needed, emitted, fuel);
    }
  }

  lemma {:induction false} EndlessAll(names: seq<string>, name: string, structs: Structs, needed: set<string>,
          emitted: set<string>, fuel: nat)
    requires Clean(emitted, structs, needed) && name in names && Loops(name, structs, needed)
    ensures EmitAll(names, structs, needed, emitted, fuel) == None
  {
    hide Loops, Emit, Clean;
    if Loops(names[0], structs, needed) {
      Endless(names[0], structs, needed, emitted, fuel);
    } else {
      CleanEmit(names[0], structs, needed, emitted, fuel);
      var r := Emit(names[0], structs, needed, emitted, fuel);
      if r.Some? {
        assert name in names[1..];
        EndlessAll(names[1..], name, structs, needed, r.value, fuel);
      }
    }
  }

  /** Without cycles the depth is bounded by the number of structs. */
  lemma {:induction false} Halts(name: string, structs: Structs, needed: set<string>, emitted: set<string>,
          stack: seq<string>, fuel: nat)
    requires Acyclic(structs, needed) && Below(stack, name, structs, needed) && fuel >= |structs.Keys - Names(stack)|
    ensures Emit(name, structs, needed, emitted, fuel).Some?
    decreases fuel, 0
  {
    hide Acyclic, Below, Needs, Holds;
    if name !in emitted && name in structs {
      NotBelowItself(stack, name, structs, needed);
      assert name in structs.Keys - Names(stack);
      HaltsFields(structs[name], name, structs, needed, emitted, stack, fuel - 1);
    }
  }

  lemma {:induction false} HaltsFields(fields: seq<Field>, name: string, structs: Structs, needed: set<string>,
          emitted: set<string>, stack: seq<string>, fuel: nat)
    requires Acyclic(structs, needed) && Below(stack, name, structs, needed) &&
        fuel + 1 >= |structs.Keys - Names(stack)|
    requires name in structs && forall f :: f in fields ==> f in structs[name]
    ensures EmitFields(fields, structs, needed, emitted, fuel).Some?
    decreases fuel, 1, |fields|
  {
    hide Acyclic, Below, Holds, Names, Emit;
    if fields != [] {
      var f := fields[0];
      HoldsOnly(f, structs, needed);
      if f.ty.Path? && |f.ty.segments| == 1 && f.ty.segments[0] in structs && f.ty.segments[0] in needed {
        var dep := f.ty.segments[0];
        assert f in structs[name] && Holds(f, dep, structs, needed);
        Deeper(stack, name, dep, structs, needed);
        Halts(dep, structs, needed, emitted, stack + [name], fuel);
        HaltsFields(fields[1..], name, structs, needed, Emit(dep, structs, needed, emitted, fuel).value, stack, fuel);
      } else {
        HaltsFields(fields[1..], name, structs, needed, emitted, stack, fuel);
      }
    }
  }

  lemma {:induction false} HaltsAll(names: seq<string>, structs: Structs, needed: set<string>, emitted: set<string>)
    requires Acyclic(structs, needed)
    ensures EmitAll(names, structs, needed, emitted, |structs.Keys|).Some?
    decreases |names|
  {
    hide Acyclic, Emit;
    if names != [] {
      assert structs.Keys - Names([]) == structs.Keys;
      assert [] + [names[0]] == [names[0]];
      Halts(names[0], structs, needed, emitted, [], |structs.Keys|);
      HaltsAll(names[1..], structs, needed, Emit(names[0], structs, needed, emitted, |structs.Keys|).value);
    }
  }

  /** The recursion ends exactly if no struct holds itself by value. */
  lemma EndsExactly(names: seq<string>, structs: Structs, needed: set<string>)
    requires forall x :: x in names <==> x in needed
    ensures (exists fuel :: EmitAll(names, structs, needed, {}, fuel).Some?) <==> Acyclic(structs, needed)
  {
    hide EmitAll, Needs;
    if Acyclic(structs, needed) {
      HaltsAll(names, structs, needed, {});
    } else {
      var p :| |p| > 1 && Chain(p, structs, needed) && p[0] == p[|p| - 1];
      var k := |p| - 2;
      assert Needs(p[k], p[k + 1], structs, needed);
      NeedsKnown(p[k], p[k + 1], structs, needed);
      assert Lasso(p, 0, structs, needed);
      forall fuel
        ensures EmitAll(names, structs, needed, {}, fuel) == None
      {
        EndlessAll(names, p[0], structs, needed, {}, fuel);
      }
    }
  }

  /** Definitions can be put in such an order at all only if nothing holds itself. */
  lemma OrderNeedsAcyclic(order: seq<string>, structs: Structs, needed: set<string>)
    requires Ordered(order, structs, needed) && forall x :: x in structs && x in needed ==> x in order
    ensures forall p :: |p| > 1 && Chain(p, structs, needed) && p[0] in needed ==> p[0] != p[|p| - 1]
  {
    forall p | |p| > 1 && Chain(p, structs, needed) && p[0] in needed
      ensures p[0] != p[|p| - 1]
    {
      assert Needs(p[0], p[0 + 1], structs, needed);
      var i := Position(order, p[0]);
      var j := ChainClimbs(order, structs, needed, p, i);
    }
  }

  lemma Position(order: seq<string>, x: string) returns (i: nat)
    requires x in order
    ensures i < |order| && order[i] == x
  {
    i :| 0 <= i < |order| && order[i] == x;
  }

  lemma {:induction false} ChainClimbs(order: seq<string>, structs: Structs, needed: set<string>, p: seq<string>,
          i: nat) returns (j: nat)
    requires Ordered(order, structs, needed) && |p| > 1 && Chain(p, structs, needed) && i < |order| && order[i] == p[0]
    ensures j < i && order[j] == p[|p| - 1]
    decreases |p|
  {
    assert Needs(p[0], p[0 + 1], structs, needed);
    assert p[1] in order[..i];
    j := Position(order[..i], p[1]);
    if |p| > 2 {
      var q := p[1..];
      forall k | 0 <= k < |q| - 1
        ensures Needs(q[k], q[k + 1], structs, needed)
      {
        assert Needs(p[k + 1], p[k + 1 + 1], structs, needed);
      }
      j := ChainClimbs(order, structs, needed, q, j);
    }
  }

  // ── Boxed return types ───────────────────────────────────────────

  /** `c_primitive`. */
  function CPrimitive(name: string): Option<string> {
    match name
    case "i8" => Some("int8_t")
    case "i16" => Some("int16_t")
    case "i32" => Some("int32_t")
    case "i64" => Some("int64_t")
    case "u8" => Some("uint8_t")
    case "u16" => Some("uint16_t")
    case "u32" => Some("uint32_t")
    case "u64" => Some("uint64_t")
    case "f32" => Some("float")
    case "f64" => Some("double")
    case "bool" => Some("uint8_t")
    case "usize" => Some("size_t")
    case "isize" => Some("ptrdiff_t")
    case _ => None
  }

  /** What a number is, whatever it is called: its kind and its width. */
  datatype Scalar = Signed(bits: nat) | Unsigned(bits: nat) | Floating(bits: nat) | Word(signed: bool) | Truth

  predicate Width(digits: string, bits: nat) {
    (digits, bits) in {("8", 8), ("16", 16), ("32", 32), ("64", 64)}
  }

  /** What a name means in the language. */
  ghost predicate Means(name: string, n: Scalar) {
    match n
    case Signed(w) => exists d :: Width(d, w) && name == "i" + d
    case Unsigned(w) => exists d :: Width(d, w) && name == "u" + d
    case Floating(w) => w >= 32 && exists d :: Width(d, w) && name == "f" + d
    case Word(signed) => name == (if signed then "i" else "u") + "size"
    case Truth => name == "bool"
  }

  /** What a name means in C; a truth value is passed in a byte. */
  ghost predicate CMeans(c: string, n: Scalar) {
    match n
    case Signed(w) => exists d :: Width(d, w) && c == "int" + d + "_t"
    case Unsigned(w) => exists d :: Width(d, w) && c == "uint" + d + "_t"
    case Floating(w) => (w == 32 && c == "float") || (w == 64 && c == "double")
    case Word(signed) => c == if signed then "ptrdiff_t" else "size_t"
    case Truth => c == "uint8_t"
  }

  /** The names with a C type are those of numbers, and it is of the same kind and width. */
  lemma CPrimitiveExactly(name: string, c: string)
    ensures CPrimitive(name) == Some(c) <==> exists n :: Means(name, n) && CMeans(c, n)
  {
    forall n | Means(name, n)
      ensures CPrimitive(name) == Some(c) <==> CMeans(c, n)
    {
      OfMeaning(name, n, c);
    }
    if CPrimitive(name).Some? {
      var n := Meaning(name);
    }
  }

  lemma OfMeaning(name: string, n: Scalar, c: string)
    requires Means(name, n)
    ensures CPrimitive(name) == Some(c) <==> CMeans(c, n)
  {
    hide CPrimitive;
    match n
    case Signed(w) => SignedName(name, w, c);
    case Unsigned(w) => UnsignedName(name, w, c);
    case Floating(w) => FloatingName(name, w, c);
    case Word(_) => WordName(name, n.signed, c);
    case Truth => assert CPrimitive(name) == Some("uint8_t") by { BoolName(); }
  }

  lemma BoolName()
    ensures CPrimitive("bool") == Some("uint8_t")
  {
  }

  lemma SignedName(name: string, w: nat, c: string)
    requires Means(name, Signed(w))
    ensures CPrimitive(name) == Some(c) <==> CMeans(c, Signed(w))
  {
    var d :| Width(d, w) && name == "i" + d;
    assert "i" + "8" == "i8" && "i" + "16" == "i16" && "i" + "32" == "i32" && "i" + "64" == "i64";
    assert "int" + "8" + "_t" == "int8_t" && "int" + "16" + "_t" == "int16_t";
    assert "int" + "32" + "_t" == "int32_t" && "int" + "64" + "_t" == "int64_t";
    assert CPrimitive(name) == Some("int" + d + "_t");
  }

  lemma UnsignedName(name: string, w: nat, c: string)
    requires Means(name, Unsigned(w))
    ensures CPrimitive(name) == Some(c) <==> CMeans(c, Unsigned(w))
  {
    var d :| Width(d, w) && name == "u" + d;
    assert "u" + "8" == "u8" && "u" + "16" == "u16" && "u" + "32" == "u32" && "u" + "64" == "u64";
    assert "uint" + "8" + "_t" == "uint8_t" && "uint" + "16" + "_t" == "uint16_t";
    assert "uint" + "32" + "_t" == "uint32_t" && "uint" + "64" + "_t" == "uint64_t";
    assert CPrimitive(name) == Some("uint" + d + "_t");
  }

  lemma FloatingName(name: string, w: nat, c: string)
    requires Means(name, Floating(w))
    ensures CPrimitive(name) == Some(c) <==> CMeans(c, Floating(w))
  {
    var d :| Width(d, w) && name == "f" + d;
    assert "f" + "32" == "f32" && "f" + "64" == "f64";
  }

  lemma WordName(name: string, signed: bool, c: string)
    requires Means(name, Word(signed))
    ensures CPrimitive(name) == Some(c) <==> CMeans(c, Word(signed))
  {
    assert "i" + "size" == "isize" && "u" + "size" == "usize";
  }

  lemma Meaning(name: string) returns (n: Scalar)
    requires CPrimitive(name).Some?
    ensures Means(name, n)
  {
    assert Width("8", 8) && Width("16", 16) && Width("32", 32) && Width("64", 64);
    assert "i" + "8" == "i8" && "i" + "16" == "i16" && "i" + "32" == "i32" && "i" + "64" == "i64";
    assert "u" + "8" == "u8" && "u" + "16" == "u16" && "u" + "32" == "u32" && "u" + "64" == "u64";
    assert "f" + "32" == "f32" && "f" + "64" == "f64" && "i" + "size" == "isize" && "u" + "size" == "usize";
    n := match name
      case "i8" => Signed(8) case "i16" => Signed(16) case "i32" => Signed(32) case "i64" => Signed(64)
      case "u8" => Unsigned(8) case "u16" => Unsigned(16) case "u32" => Unsigned(32) case "u64" => Unsigned(64)
      case "f32" => Floating(32) case "f64" => Floating(64)
      case "usize" => Word(false) case "isize" => Word(true) case _ => Truth;
  }

  datatype Boxed =
    | Flat(structName: string, elem: string)
    | Nested(outerName: string, elemStruct: string, elemElem: string)

  /** `boxed_shape_of`: strings, vectors of scalars, and vectors of those. */
  function BoxedShape(t: Type): Option<Boxed> {
    if !t.Path? || |t.segments| != 1 then None
    else if t.segments[0] == "String" then Some(Flat("KaraString", "uint8_t"))
    else if t.segments[0] == "Vec" && |t.args| == 1 then
      var e := t.args[0];
      if e.Path? && |e.segments| == 1 && CPrimitive(e.segments[0]).Some? then
        var c := CPrimitive(e.segments[0]).value;
        Some(Flat("KaraVec_" + c, c))
      else
        match BoxedShape(e)
        case Some(Flat(s, c)) => Some(Nested("KaraVec_" + s, s, c))
        case _ => None
    else None
  }

  /** One typedef: its name and the type its `data` points at. */
  datatype Def = Def(name: string, elem: string)

  predicate IsScalar(c: string) {
    c == "uint8_t" || c == "int8_t" || c == "int16_t" || c == "int32_t" || c == "int64_t" || c == "uint16_t" ||
        c == "uint32_t"
    || c == "uint64_t" || c == "float" || c == "double" || c == "size_t" || c == "ptrdiff_t"
  }

  predicate Defined(defs: seq<Def>, name: string) {
    exists i :: 0 <= i < |defs| && defs[i].name == name
  }

  /** A name stands for one element type only. */
  predicate Named(d: Def) {
    if d.name == "KaraString" then d.elem == "uint8_t" else d.name == "KaraVec_" + d.elem
  }

  ghost predicate DefsOrdered(defs: seq<Def>) {
    && (forall i, j :: 0 <= i < j < |defs| ==> defs[i].name != defs[j].name)
    && (forall i :: 0 <= i < |defs| ==> Named(defs[i]) && (IsScalar(defs[i].elem) || Defined(defs[..i], defs[i].elem)))
  }

  method PushDef(defs: seq<Def>, seen: set<string>, d: Def) returns (defs': seq<Def>, seen': set<string>)
    requires DefsOrdered(defs) && (forall x :: x in seen <==> Defined(defs, x)) && Named(d)
    requires IsScalar(d.elem) || Defined(defs, d.elem)
    ensures DefsOrdered(defs') && (forall x :: x in seen' <==> Defined(defs', x))
    ensures defs' == if Defined(defs, d.name) then defs else defs + [d]
    ensures defs <= defs' && Defined(defs', d.name)
  {
    defs', seen' := defs, seen;
    if d.name !in seen {
      defs', seen' := defs + [d], seen + {d.name};
      assert defs'[|defs|] == d;
      forall i | 0 <= i < |defs'|
        ensures defs'[..i] == if i < |defs| then defs[..i] else defs
      {
      }
      forall x
        ensures Defined(defs', x) <==> Defined(defs, x) || x == d.name
      {
        if Defined(defs, x) {
          var i :| 0 <= i < |defs| && defs[i].name == x;
          assert defs'[i].name == x;
        }
      }
    }
  }

  lemma FlatIsNamed(t: Type)
    ensures BoxedShape(t).Some? && BoxedShape(t).value.Flat? ==>
        Named(Def(BoxedShape(t).value.structName, BoxedShape(t).value.elem)) && IsScalar(BoxedShape(t).value.elem)
    ensures BoxedShape(t).Some? && BoxedShape(t).value.Nested? ==>
      && Named(Def(BoxedShape(t).value.outerName, BoxedShape(t).value.elemStruct))
      && Named(Def(BoxedShape(t).value.elemStruct, BoxedShape(t).value.elemElem)) &&
          IsScalar(BoxedShape(t).value.elemElem)
  {
    if BoxedShape(t).Some? {
      ShapeNames(t);
    }
  }

  lemma ShapeNames(t: Type)
    requires BoxedShape(t).Some?
    ensures match BoxedShape(t).value
      case Flat(s, c) => IsScalar(c) && Named(Def(s, c))
      case Nested(o, s, c) => IsScalar(c) && Named(Def(s, c)) && o == "KaraVec_" + s
  {
    assert "KaraVec_"[4] == 'V' && "KaraString"[4] == 'S';
    if t.segments[0] == "Vec" {
      var e := t.args[0];
      if e.Path? && |e.segments| == 1 && CPrimitive(e.segments[0]).Some? {
        var c := CPrimitive(e.segments[0]).value;
        assert ("KaraVec_" + c)[4] == 'V';
      } else {
        ShapeNames(e);
      }
    }
  }

  ghost predicate IsVec(t: Type, elem: Type) {
    t == Path(["Vec"], [elem])
  }

  /** A string or a vector of numbers, with its typedef. */
  ghost predicate AsksFlat(t: Type, d: Def) {
    || (t.Path? && t.segments == ["String"] && d == Def("KaraString", "uint8_t"))
    || exists e, name, n ::
        IsVec(t, e) && e.Path? && e.segments == [name] && Means(name, n) && CMeans(d.elem, n) &&
        d.name == "KaraVec_" + d.elem
  }

  /** A result type asks for a typedef: its own, or, for a vector of strings or of vectors of
      numbers, also that of the elements. */
  ghost predicate Asks(t: Type, d: Def) {
    || AsksFlat(t, d)
    || exists e, inner :: IsVec(t, e) && AsksFlat(e, inner) && d in {inner, Def("KaraVec_" + inner.name, inner.name)}
  }

  lemma FlatAsked(t: Type, d: Def)
    ensures BoxedShape(t) == Some(Flat(d.name, d.elem)) <==> AsksFlat(t, d)
  {
    hide Means, CMeans, CPrimitive;
    if t.Path? && |t.segments| == 1 {
      assert t.segments == [t.segments[0]];
      if t.segments[0] == "Vec" && |t.args| == 1 {
        var e := t.args[0];
        assert t.args == [e] && IsVec(t, e);
        if e.Path? && |e.segments| == 1 {
          assert e.segments == [e.segments[0]];
          CPrimitiveExactly(e.segments[0], d.elem);
        }
      }
    }
  }

  lemma NestedAsked(t: Type, d: Def, inner: Def)
    requires d.elem == inner.name
    ensures BoxedShape(t) == Some(Nested(d.name, inner.name, inner.elem)) <==>
      exists e :: IsVec(t, e) && AsksFlat(e, inner) && d == Def("KaraVec_" + inner.name, inner.name)
  {
    if t.Path? && |t.segments| == 1 && t.segments[0] == "Vec" && |t.args| == 1 {
      var e := t.args[0];
      assert t == Path(["Vec"], [e]);
      assert IsVec(t, e);
      FlatAsked(e, inner);
      if AsksFlat(e, inner) {
        NotNumber(e, inner);
      }
    }
  }

  /** A type with a typedef of its own is not the name of a number. */
  lemma NotNumber(e: Type, d: Def)
    requires AsksFlat(e, d)
    ensures e.Path? && |e.segments| == 1 && CPrimitive(e.segments[0]).None?
  {
  }

  /** The typedefs of a boxed shape. */
  function DefsOf(shape: Option<Boxed>): set<Def> {
    match shape
    case None => {}
    case Some(Flat(s, c)) => {Def(s, c)}
    case Some(Nested(o, s, c)) => {Def(o, s), Def(s, c)}
  }

  lemma AsksExactly(t: Type, d: Def)
    ensures d in DefsOf(BoxedShape(t)) <==> Asks(t, d)
  {
    hide AsksFlat, BoxedShape;
    FlatAsked(t, d);
    if d in DefsOf(BoxedShape(t)) && BoxedShape(t).value.Nested? {
      var b := BoxedShape(t).value;
      NestedAsked(t, Def(b.outerName, b.elemStruct), Def(b.elemStruct, b.elemElem));
    }
    if e, inner :| IsVec(t, e) && AsksFlat(e, inner) && d in {inner, Def("KaraVec_" + inner.name, inner.name)} {
      NestedAsked(t, Def("KaraVec_" + inner.name, inner.name), inner);
    }
  }

  /** The typedefs of the boxed returns: those asked for and no other, each name once,
      element types first. */
  method BoxedDefs(results: seq<Type>) returns (defs: seq<Def>)
    ensures DefsOrdered(defs)
    ensures forall d :: d in defs <==> exists i :: 0 <= i < |results| && Asks(results[i], d)
  {
    hide DefsOrdered, Defined;
    defs := [];
    var seen: set<string> := {};
    NoDefs();
    for i := 0 to |results|
      invariant DefsOrdered(defs) && (forall x :: x in seen <==> Defined(defs, x))
      invariant forall d :: d in defs <==> exists j :: 0 <= j < i && d in DefsOf(BoxedShape(results[j]))
    {
      var shape := BoxedShape(results[i]);
      FlatIsNamed(results[i]);
      match shape {
        case None =>
        case Some(Flat(s, c)) =>
          ghost var was := defs;
          defs, seen := PushDef(defs, seen, Def(s, c));
          SameDef(was, defs, Def(s, c));
        case Some(Nested(o, s, c)) =>
          ghost var was := defs;
          defs, seen := PushDef(defs, seen, Def(s, c));
          SameDef(was, defs, Def(s, c));
          ghost var mid := defs;
          defs, seen := PushDef(defs, seen, Def(o, s));
          SameDef(mid, defs, Def(o, s));
      }
    }
    forall i, d | 0 <= i < |results|
      ensures d in DefsOf(BoxedShape(results[i])) <==> Asks(results[i], d)
    {
      AsksExactly(results[i], d);
    }
  }

  lemma NoDefs()
    ensures DefsOrdered([]) && forall x :: !Defined([], x)
  {
  }

  /** A typedef left out because its name was seen is the one that is there. */
  lemma SameDef(defs: seq<Def>, defs': seq<Def>, d: Def)
    requires DefsOrdered(defs) && Named(d) && defs' == if Defined(defs, d.name) then defs else defs + [d]
    ensures d in defs' && defs <= defs' && forall x :: x in defs' ==> x in defs || x == d
  {
    if Defined(defs, d.name) {
      var i :| 0 <= i < |defs| && defs[i].name == d.name;
      if d.name != "KaraString" {
        assert d.elem == d.name[8..] && defs[i].elem == defs[i].name[8..];
      }
      assert defs[i] == d;
    }
  }
}
