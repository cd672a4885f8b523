/** Bodies whose cleanup stays inside itself. The builder lowers a cleanup body
    again at every exit with all scopes and loops of that exit still open, so a
    cleanup body that returns, fails or leaves an outer loop would unwind again. */
module CfgTame {
  import opened Options
  import opened CfgSyntax
  import opened CfgLowering
  import opened CfgInvariant
  import opened CfgGraph

  /** Some loop around has the label, or there is a loop if there is no label. */
  predicate Known(ls: seq<Label>, lbl: Label) {
    ls != [] && (lbl == None || ls[|ls| - 1] == lbl || Known(ls[..|ls| - 1], lbl))
  }

  /** `inside` is for cleanup bodies; `ls` are the labels of the loops around. */
  predicate TameE(e: Expr, inside: bool, ls: seq<Label>) {
    match e
    case Leaf => true
    case Use(_, _) => true
    case Ops(_, es) => TameEs(es, inside, ls)
    case BlockE(b) => TameB(b, inside, ls)
    case If(_, cond, t, el) =>
      TameE(cond, inside, ls) && TameB(t, inside, ls) && (el.Some? ==> TameE(el.value, inside, ls))
    case Match(s, arms) => TameE(s, inside, ls) && TameArms(arms, inside, ls)
    case While(l, cond, b) => TameE(cond, inside, ls) && TameB(b, inside, ls + [l])
    case For(l, _, it, b) => TameE(it, inside, ls) && TameB(b, inside, ls + [l])
    case Loop(l, b) => TameB(b, inside, ls + [l])
    case Break(l, v) => TameE(v, inside, ls) && (inside ==> Known(ls, l))
    case Continue(l) => inside ==> Known(ls, l)
    case Return(v) => !inside && TameE(v, inside, ls)
    case Question(x) => !inside && TameE(x, inside, ls)
    case Closure(x) => TameE(x, inside, ls)
    case MethodCall(o, args) => TameE(o, inside, ls) && TameArgs(args, inside, ls)
  }

  predicate TameEs(es: Exprs, inside: bool, ls: seq<Label>) {
    match es
    case ENil => true
    case ECons(h, t) => TameE(h, inside, ls) && TameEs(t, inside, ls)
  }

  predicate TameArgs(args: Args, inside: bool, ls: seq<Label>) {
    match args
    case ANil => true
    case ACons(_, v, t) => TameE(v, inside, ls) && TameArgs(t, inside, ls)
  }

  predicate TameArms(arms: Arms, inside: bool, ls: seq<Label>) {
    match arms
    case NoArm => true
    case Arm(_, g, b, others) => TameE(g, inside, ls) && TameE(b, inside, ls) && TameArms(others, inside, ls)
  }

  predicate TameB(b: Block, inside: bool, ls: seq<Label>) {
    match b
    case Done(e) => TameE(e, inside, ls)
    case Then(s, rest) => TameS(s, inside, ls) && TameB(rest, inside, ls)
  }

  predicate TameS(s: Stmt, inside: bool, ls: seq<Label>) {
    match s
    case Let(_, v) => TameE(v, inside, ls)
    case LetUninit(_) => true
    case LetElse(_, v, b) => TameE(v, inside, ls) && TameB(b, inside, ls)
    case Defer(b) => TameB(b, true, [])
    case ErrDefer(b) => TameB(b, true, [])
    case Assign(t, v) => TameE(t, inside, ls) && TameE(v, inside, ls)
    case ExprStmt(e) => TameE(e, inside, ls)
  }

  predicate TameItems(items: seq<Item>) {
    forall it :: it in items ==> TameB(it.body, true, [])
  }

  /** How the builder's stacks are seen in a body: its own scopes start at
      `base` of the defer stack, its own loops at `outer` of the loop list. */
  datatype View = View(c: Ctx, base: nat, outer: nat, inside: bool)

  ghost predicate Seen(v: View, defers: seq<seq<Item>>, loops: seq<LoopFrame>) {
    && v.base <= |defers| && v.c.frames == defers[v.base..]
    && |loops| == v.outer + |v.c.loops|
    && (forall i :: 0 <= i < |v.c.loops| ==>
          && loops[v.outer + i] == v.c.loops[i].(depth := v.c.loops[i].depth + v.base)
          && v.c.loops[i].depth <= |v.c.frames|)
    && (!v.inside ==> v.base == 0 && v.outer == 0)
    && (forall items :: items in v.c.frames ==> TameItems(items))
  }

  /** A label resolved in a longer list of loops, when it is known among the last ones. */
  lemma {:induction false} Shifted(own: seq<LoopFrame>, loops: seq<LoopFrame>, outer: nat, lbl: Label)
    requires |loops| == outer + |own| && (forall i :: 0 <= i < |own| ==> loops[outer + i].lbl == own[i].lbl)
    requires outer == 0 || Known(Labels(own), lbl)
    ensures Resolve(loops, lbl) == match Resolve(own, lbl) case None => None case Some(i) => Some(outer + i)
    decreases |own|
  {
    if own != [] {
      var k := |own| - 1;
      assert loops[outer + k].lbl == own[k].lbl;
      assert Labels(own)[..k] == Labels(own[..k]);
      if !(lbl == None || own[k].lbl == lbl) {
        Shifted(own[..k], loops[..|loops| - 1], outer, lbl);
      }
    }
  }

  /** A loop resolved in the whole list is the one resolved among the body's own. */
  lemma SameLoop(v: View, defers: seq<seq<Item>>, loops: seq<LoopFrame>, lbl: Label)
    requires Seen(v, defers, loops) && (v.inside ==> Known(Labels(v.c.loops), lbl))
    ensures Resolve(loops, lbl) == match Resolve(v.c.loops, lbl) case None => None case Some(i) => Some(v.outer + i)
  {
    Shifted(v.c.loops, loops, v.outer, lbl);
  }

  lemma CleanupSeen(v: View, defers: seq<seq<Item>>, loops: seq<LoopFrame>)
    ensures Seen(View(CleanupCtx(v.c), |defers|, |loops|, true), defers, loops)
  {
  }

  lemma LoopSeen(v: View, defers: seq<seq<Item>>, loops: seq<LoopFrame>, lbl: Label, merge: nat, header: nat)
    requires Seen(v, defers, loops)
    ensures Seen(v.(c := InLoop(v.c, lbl, merge, header)), defers, loops + [LoopFrame(lbl, merge, header, |defers|)])
    ensures Labels(InLoop(v.c, lbl, merge, header).loops) == Labels(v.c.loops) + [lbl]
  {
    var c1 := InLoop(v.c, lbl, merge, header);
    forall i | 0 <= i < |c1.loops|
      ensures (loops + [LoopFrame(lbl, merge, header, |defers|)])[v.outer + i] ==
          c1.loops[i].(depth := c1.loops[i].depth + v.base)
      ensures c1.loops[i].depth <= |c1.frames|
    {
      if i < |v.c.loops| {
        assert c1.loops[..|v.c.loops|][i] == c1.loops[i];
      }
    }
  }

  lemma TameNone()
    ensures TameItems([])
  {
  }

  lemma ScopeSeen(v: View, defers: seq<seq<Item>>, loops: seq<LoopFrame>, items: seq<Item>)
    requires Seen(v, defers, loops) && TameItems(items)
    ensures Seen(v.(c := InScope(v.c, items)), defers + [items], loops)
  {
    var c1 := InScope(v.c, items);
    assert (defers + [items])[v.base..] == defers[v.base..] + [items];
    forall its | its in c1.frames
      ensures TameItems(its)
    {
      assert its in v.c.frames || its == items;
    }
  }

  /** Registering an item with the scope on top. */
  lemma RegisterSeen(v: View, below: seq<seq<Item>>, items: seq<Item>, it: Item, loops: seq<LoopFrame>)
    requires Seen(v.(c := InScope(v.c, items)), below + [items], loops) && TameItems(items) && TameB(it.body, true, [])
    ensures Seen(v.(c := InScope(v.c, Push(items, it))), below + [Push(items, it)], loops) && TameItems(Push(items, it))
  {
    var c0 := InScope(v.c, items);
    var c1 := InScope(v.c, Push(items, it));
    assert |c0.frames| == |below| + 1 - v.base;
    assert (below + [items])[v.base..] == below[v.base..] + [items];
    assert v.c.frames == below[v.base..] by { assert c0.frames[..|v.c.frames|] == v.c.frames; }
    assert (below + [Push(items, it)])[v.base..] == below[v.base..] + [Push(items, it)];
    forall x | x in Push(items, it)
      ensures TameB(x.body, true, [])
    {
      assert x in items || x == it;
    }
    forall its | its in c1.frames
      ensures TameItems(its)
    {
      assert its in v.c.frames || its == Push(items, it);
      if its in v.c.frames { assert its in c0.frames; }
    }
    forall i | 0 <= i < |c1.loops|
      ensures loops[v.outer + i] == c1.loops[i].(depth := c1.loops[i].depth + v.base) &&
          c1.loops[i].depth <= |c1.frames|
    {
      assert c0.loops[i] == c1.loops[i];
    }
  }

  lemma {:induction false} PickTame(items: seq<Item>, err: bool)
    requires TameItems(items)
    ensures forall b :: b in Pick(items, err) ==> TameB(b, true, [])
  {
    if items != [] {
      PickTame(items[..|items| - 1], err);
    }
  }

  lemma TameWhile(e: Expr, inside: bool, ls: seq<Label>)
    requires e.While? && TameE(e, inside, ls)
    ensures TameE(e.cond, inside, ls) && TameB(e.body, inside, ls + [e.lbl])
  {
  }

  lemma TameFor(e: Expr, inside: bool, ls: seq<Label>)
    requires e.For? && TameE(e, inside, ls)
    ensures TameE(e.iterable, inside, ls) && TameB(e.body, inside, ls + [e.lbl])
  {
  }

  /** Outside cleanup bodies the builder's scopes are all the body's own. */
  lemma OwnScopes(v: View, defers: seq<seq<Item>>, loops: seq<LoopFrame>)
    requires Seen(v, defers, loops)
    ensures v.base <= |defers| && (!v.inside ==> v.base == 0)
  {
  }

  lemma {:induction false} SinksTame(args: Args, cl: Classification, inside: bool, ls: seq<Label>)
    requires TameArgs(args, inside, ls)
    ensures forall x :: x in SinkExprs(args, cl) ==> TameE(x, inside, ls)
  {
    if args.ACons? {
      SinksTame(args.tail, cl, inside, ls);
    }
  }

  lemma SinkView(v: View, defers: seq<seq<Item>>, loops: seq<LoopFrame>, p: Point, n: nat)
    requires Seen(v, defers, loops) && Wf(v.c, p, n)
    ensures Seen(v.(c := v.c.(inSink := true)), defers, loops) && Wf(v.c.(inSink := true), p, n)
  {
  }
}
