/** Every path of the graph to the exit is a run of the source: from a path one
    can read off the branches taken and the rounds of each loop. */
module CfgComplete {
  import opened Options
  import opened CfgSyntax
  import opened CfgLowering
  import opened CfgInvariant
  import opened CfgRuns
  import opened CfgPaths
  import opened CfgSound
  import opened CfgExact
  import opened CfgPlain

  /** A run found at the start of a path: the run, the cleanup it leaves to the
      scopes around it, and the rest of the path. */
  datatype Found = Found(t: Run, cs: Runs, rest: seq<Event>)

  function ExitOf(c: Ctx): Point {
    Point(c.exit, 0)
  }

  /** The converse of `Goes`: the rest of the path starts where the run ends. */
  ghost predicate Leads(G: seq<Event>, c: Ctx, out: Point, o: Outcome, cs: Runs, rest: seq<Event>) {
    if o == Normal then PathTo(G, out, rest, ExitOf(c))
    else
      && TargetOf(c, o).Some?
      && RunBodies(c.cl, TargetOf(c, o).value.bodies, cs)
      && PathTo(G, Point(TargetOf(c, o).value.dst, 0), rest, ExitOf(c))
  }

  /** `x` is what the path `es` does in a fragment that ends at `out`. */
  ghost predicate Ends(G: seq<Event>, c: Ctx, out: Point, es: seq<Event>, x: Found, top: bool) {
    && Labels1(es) == Trace(x.t) + After(Out(x.t), x.cs, Labels1(x.rest))
    && |x.rest| <= |es| && (Out(x.t) != Normal ==> |x.rest| < |es|)
    && (!top ==> Out(x.t) != Ret)
    && Leads(G, c, out, Out(x.t), x.cs, x.rest)
  }

  // ── Reading a path ───────────────────────────────────────────────

  lemma PeelJump(G: seq<Event>, q: Point, es: seq<Event>, z: Point, moves: set<Event>)
    requires PathTo(G, q, es, z) && Only(G, q, moves) && q != z && forall ev :: ev in moves ==> ev.Jump?
    ensures es != [] && es[0] in moves && PathTo(G, Point(es[0].dst, 0), es[1..], z) && Labels1(es) == Labels1(es[1..])
  {
    assert [] + Labels1(es[1..]) == Labels1(es[1..]);
  }

  lemma EmptyEnds(G: seq<Event>, c: Ctx, q: Point, es: seq<Event>, top: bool)
    requires PathTo(G, q, es, ExitOf(c))
    ensures Ends(G, c, q, es, Found(Emit([]), RNil, es), top)
  {
    assert [] + Labels1(es) == Labels1(es);
  }

  lemma SeqEnds(G: seq<Event>, c: Ctx, mid: Point, out: Point, es: seq<Event>, x: Found, y: Found, top: bool)
    returns (w: Found)
    requires Ends(G, c, mid, es, x, top) && Out(x.t) == Normal && Ends(G, c, out, x.rest, y, top)
    ensures w == Found(Seq(x.t, y.t), y.cs, y.rest) && Ends(G, c, out, es, w, top)
  {
    w := Found(Seq(x.t, y.t), y.cs, y.rest);
    Assoc(Trace(x.t), Trace(y.t), After(Out(y.t), y.cs, Labels1(y.rest)));
  }

  lemma EarlyEnds(G: seq<Event>, c: Ctx, mid: Point, out: Point, es: seq<Event>, x: Found, top: bool)
    requires Ends(G, c, mid, es, x, top) && Out(x.t) != Normal
    ensures Ends(G, c, out, es, x, top)
  {
  }

  lemma JumpEnds(G: seq<Event>, c: Ctx, out: Point, es: seq<Event>, x: Found, top: bool)
    requires es != [] && es[0].Jump? && Ends(G, c, out, es[1..], x, top)
    ensures Ends(G, c, out, es, x, top)
  {
    assert [] + Labels1(es[1..]) == Labels1(es[1..]);
  }

  /** A fragment whose end has a single edge goes on where that edge leads. */
  lemma Onward(G: seq<Event>, c: Ctx, q: Point, m: nat, back: bool, es: seq<Event>, x: Found, top: bool)
    returns (y: Found)
    requires Ends(G, c, q, es, x, top) && Only(G, q, {Jump(q, m, back)}) && q.block != c.exit
    ensures y.t == x.t && y.cs == x.cs && Ends(G, c, Point(m, 0), es, y, top)
    ensures Out(x.t) == Normal ==> |y.rest| < |es|
  {
    if Out(x.t) == Normal {
      PeelJump(G, q, x.rest, ExitOf(c), {Jump(q, m, back)});
      y := Found(x.t, x.cs, x.rest[1..]);
    } else {
      y := x;
    }
  }

  lemma {:induction false} DefsEnds(names: seq<string>, span: nat, c: Ctx, p: Point, n: nat, r: Ren, G: seq<Event>,
          es: seq<Event>, top: bool)
    returns (x: Found)
    requires p.block != c.exit && p.block < n && ExactF(G, LowerDefs(names, span, p, n, r), p, n) &&
        PathTo(G, p, es, ExitOf(c))
    ensures x.t == Emit(Defines(names, span)) && Ends(G, c, LowerDefs(names, span, p, n, r).out, es, x, top)
    decreases |names|
  {
    if names == [] {
      EmptyEnds(G, c, p, es, top);
      x := Found(Emit([]), RNil, es);
    } else {
      var q := Point(p.block, p.off + 1);
      var r1 := Note(r, names[0]);
      var d := LowerDefs(names[1..], span, q, n, r1);
      var u := Rename(r1, DefineUse(names[0], span));
      DefsFrom(names[1..], span, q, n, r1);
      StepExact(G, u, p, n, d);
      assert es[0] == Step(p, Some(u));
      var y := DefsEnds(names[1..], span, c, q, n, r1, G, es[1..], top);
      x := Found(Emit(Defines(names, span)), RNil, y.rest);
      Assoc([DefineUse(names[0], span)], Defines(names[1..], span), Labels1(y.rest));
    }
  }

  lemma DefsFrom(names: seq<string>, span: nat, p: Point, n: nat, r: Ren)
    ensures forall ev :: ev in LowerDefs(names, span, p, n, r).log ==> ev.src.block == p.block && ev.src.off >= p.off
    decreases |names|
  {
    if names != [] {
      DefsFrom(names[1..], span, Point(p.block, p.off + 1), n, Note(r, names[0]));
    }
  }

  /** At its first position a fragment that starts with a use has only that use. */
  lemma StepExact(G: seq<Event>, u: UseSite, p: Point, n: nat, d: Frag)
    requires p.block < n && d.out.block == p.block && d.out.off > p.off
    requires forall ev :: ev in d.log ==> ev.src.block == p.block && ev.src.off > p.off
    requires ExactF(G, d.(log := [Step(p, Some(u))] + d.log), p, n)
    ensures Only(G, p, {Step(p, Some(u))}) && ExactF(G, d, Point(p.block, p.off + 1), n)
  {
  }

  // ── Expressions ──────────────────────────────────────────────────

  lemma {:induction false} CompleteE(e: Expr, top: bool, c: Ctx, p: Point, n: nat, r: Ren, G: seq<Event>,
          es: seq<Event>)
    returns (x: Found)
    requires Ok(c, p, n) && PlainE(e, top, c.cl) && ExactF(G, LowerE(e, c, p, n, r), p, n) &&
        PathTo(G, p, es, ExitOf(c))
    ensures RunE(c.cl, e, x.t) && Ends(G, c, LowerE(e, c, p, n, r).out, es, x, top)
    decreases |es|, SizeE(e) + FramesSize(c.frames), 2
  {
    hide Ends, Ok, ExactF, PathTo;
    match e
    case Leaf =>
      EmptyEnds(G, c, p, es, top);
      x := Found(Emit([]), RNil, es);
    case Use(name, span) => x := CompleteUse(e, c, p, n, r, G, es, top);
    case Ops(_, xs) => x := CompleteEs(xs, top, c, p, n, r, G, es);
    case BlockE(b) => x := CompleteBlock(b, top, c, p, n, r, G, es);
    case If(_, _, _, el) =>
      if el.None? { x := CompleteIf(e, top, c, p, n, r, G, es); }
          else { x := CompleteIfElse(e, top, c, p, n, r, G, es); }
    case Match(_, _) => x := CompleteMatch(e, top, c, p, n, r, G, es);
    case While(l, cond, b) => x := CompleteLoop(Some(cond), None, l, b, top, c, p, n, r, G, es);
    case For(_, _, _, _) => x := CompleteFor(e, top, c, p, n, r, G, es);
    case Loop(l, b) => x := CompleteLoop(None, None, l, b, top, c, p, n, r, G, es);
    case Break(l, v) => x := CompleteExit(v, Brk(l), top, c, p, n, r, G, es);
    case Continue(l) => x := CompleteContinue(l, top, c, p, n, r, G, es);
    case Return(v) => x := CompleteExit(v, Ret, top, c, p, n, r, G, es);
    case Question(_) => x := CompleteQuestion(e, top, c, p, n, r, G, es);
    case MethodCall(o, args) => x := CompleteCall(e, top, c, p, n, r, G, es);
  }

  lemma CompleteUse(e: Expr, c: Ctx, p: Point, n: nat, r: Ren, G: seq<Event>, es: seq<Event>, top: bool)
    returns (x: Found)
    requires e.Use? && Ok(c, p, n) && ExactF(G, LowerE(e, c, p, n, r), p, n) && PathTo(G, p, es, ExitOf(c))
    ensures RunE(c.cl, e, x.t) && Ends(G, c, LowerE(e, c, p, n, r).out, es, x, top)
  {
    var u := Rename(r, LeafUse(c.cl, e.name, e.span));
    StepExact(G, u, p, n, Frag([], Point(p.block, p.off + 1), n, r));
    assert es[0] == Step(p, Some(u));
    x := Found(Emit([LeafUse(c.cl, e.name, e.span)]), RNil, es[1..]);
  }

  lemma {:induction false} CompleteEs(xs: Exprs, top: bool, c: Ctx, p: Point, n: nat, r: Ren, G: seq<Event>,
          es: seq<Event>)
    returns (x: Found)
    requires Ok(c, p, n) && PlainEs(xs, top, c.cl) && ExactF(G, LowerEs(xs, c, p, n, r), p, n) &&
        PathTo(G, p, es, ExitOf(c))
    ensures RunEs(c.cl, xs, x.t) && Ends(G, c, LowerEs(xs, c, p, n, r).out, es, x, top)
    decreases |es|, SizeEs(xs) + FramesSize(c.frames), 0
  {
    hide Ok, ExactF, PathTo, Lean, LowerE, TargetOf;
    match xs
    case ENil =>
      EmptyEnds(G, c, p, es, top);
      x := Found(Emit([]), RNil, es);
    case ECons(h, tl) =>
      var f := LowerE(h, c, p, n, r);
      var g := LowerEs(tl, c, f.out, f.next, f.ren);
      LeanE(h, top, c, p, n, r);
      LeanEs(tl, top, c, f.out, f.next, f.ren);
      ExactCat(G, f, g, p, n);
      x := CompleteE(h, top, c, p, n, r, G, es);
      if Out(x.t) == Normal {
        var y := CompleteEs(tl, top, c, f.out, f.next, f.ren, G, x.rest);
        x := SeqEnds(G, c, f.out, g.out, es, x, y, top);
      } else {
        EarlyEnds(G, c, f.out, g.out, es, x, top);
      }
  }

  lemma {:induction false} CompleteCall(e: Expr, top: bool, c: Ctx, p: Point, n: nat, r: Ren, G: seq<Event>,
          es: seq<Event>)
    returns (x: Found)
    requires e.MethodCall?
    requires Ok(c, p, n) && PlainE(e, top, c.cl) && ExactF(G, LowerE(e, c, p, n, r), p, n) &&
        PathTo(G, p, es, ExitOf(c))
    ensures RunE(c.cl, e, x.t) && Ends(G, c, LowerE(e, c, p, n, r).out, es, x, top)
    decreases |es|, SizeE(e) + FramesSize(c.frames), 1
  {
    hide Ok, ExactF, PathTo, Ends;
    var f := LowerE(e.receiver, c, p, n, r);
    ArgsAsOperands(e.actuals, c, f.out, f.next, f.ren);
    OperandsPlain(e.actuals, top, c.cl);
    var xs := ECons(e.receiver, Operands(e.actuals));
    assert LowerEs(xs, c, p, n, r) == LowerE(e, c, p, n, r);
    assert SizeEs(xs) == SizeE(e);
    x := CompleteEs(xs, top, c, p, n, r, G, es);
  }

  lemma OperandsPlain(args: Args, top: bool, cl: Classification)
    requires PlainArgs(args, top, cl)
    ensures PlainEs(Operands(args), top, cl)
  {
  }

  // ── Branches ─────────────────────────────────────────────────────

  /** The loop variables or the pattern of a branch, then its block. */
  lemma {:induction false} CompleteThen(pat: Pat, b: Block, top: bool, c: Ctx, n: nat, r: Ren, G: seq<Event>,
          es: seq<Event>)
    returns (x: Found, t: Run)
    requires Ok(c, Point(n, 0), n + 1) && PlainB(b, top, c.cl)
    requires ExactF(G, LowerThen(pat, b, c, n, r), Point(n, 0), n + 1) && PathTo(G, Point(n, 0), es, ExitOf(c))
    ensures RunB(c.cl, b, [], t) && x.t == Seq(Emit(Defines(pat.names, pat.span)), t)
    ensures Ends(G, c, LowerThen(pat, b, c, n, r).out, es, x, top)
    decreases |es|, SizeB(b) + FramesSize(c.frames), 4
  {
    hide Ok, ExactF, PathTo, Lean, LowerBlock, TargetOf, Ends;
    var d := LowerDefs(pat.names, pat.span, Point(n, 0), n + 1, r);
    var g := LowerBlock(b, c, d.out, n + 1, d.ren);
    OkStart(c, Point(n, 0), n + 1, d);
    LeanDefs(pat.names, pat.span, Point(n, 0), n + 1, r);
    LeanBlock(b, top, c, d.out, n + 1, d.ren);
    ExactCat(G, d, g, Point(n, 0), n + 1);
    var v := DefsEnds(pat.names, pat.span, c, Point(n, 0), n + 1, r, G, es, top);
    EndsLess(G, c, d.out, es, v, top);
    var y := CompleteBlock(b, top, c, d.out, n + 1, d.ren, G, v.rest);
    x := SeqEnds(G, c, d.out, g.out, es, v, y, top);
    t := y.t;
  }

  lemma EndsLess(G: seq<Event>, c: Ctx, out: Point, es: seq<Event>, x: Found, top: bool)
    requires Ends(G, c, out, es, x, top)
    ensures |x.rest| <= |es| && (Out(x.t) == Normal ==> PathTo(G, out, x.rest, ExitOf(c))) && (!top ==> Out(x.t) != Ret)
  {
  }

  /** A block position in a fresh block is fine to go on from. */
  lemma OkStart(c: Ctx, p: Point, n: nat, d: Frag)
    requires Ok(c, p, n) && d.out.block == p.block && d.out.off >= p.off
    ensures Ok(c, d.out, n) && p.block != c.exit && p.block < n
  {
  }

  lemma {:induction false} CompleteIf(e: Expr, top: bool, c: Ctx, p: Point, n: nat, r: Ren, G: seq<Event>,
          es: seq<Event>)
    returns (x: Found)
    requires e.If? && e.elseBranch.None?
    requires Ok(c, p, n) && PlainE(e, top, c.cl) && ExactF(G, LowerE(e, c, p, n, r), p, n) &&
        PathTo(G, p, es, ExitOf(c))
    ensures RunE(c.cl, e, x.t) && Ends(G, c, LowerE(e, c, p, n, r).out, es, x, top)
    decreases |es|, SizeE(e) + FramesSize(c.frames), 1
  {
    hide Ok, ExactF, PathTo, Lean, TargetOf, Ends, LowerThen, Only;
    var f := LowerE(e.cond, c, p, n, r);
    var g := LowerThen(e.pat, e.thenBranch, c, f.next, f.ren);
    LeanE(e.cond, top, c, p, n, r);
    OkBranch(c, f.out, f.next);
    LeanThen(e.pat, e.thenBranch, top, c, f.next, f.ren);
    ExactIf(G, f, g, p, n);
    x := CompleteE(e.cond, top, c, p, n, r, G, es);
    EndsLess(G, c, f.out, es, x, top);
    if Out(x.t) != Normal {
      EarlyEnds(G, c, f.out, Point(g.next, 0), es, x, top);
    } else {
      OkBlock(c, f.out, f.next);
      OkBlock(c, g.out, g.next);
      PeelJump(G, f.out, x.rest, ExitOf(c), {Jump(f.out, f.next, false), Jump(f.out, g.next, false)});
      var y: Found;
      if x.rest[0] == Jump(f.out, f.next, false) {
        var t: Run;
        y, t := CompleteThen(e.pat, e.thenBranch, top, c, f.next, f.ren, G, x.rest[1..]);
        y := Onward(G, c, g.out, g.next, false, x.rest[1..], y, top);
      } else {
        EmptyEnds(G, c, Point(g.next, 0), x.rest[1..], top);
        y := Found(Emit([]), RNil, x.rest[1..]);
      }
      JumpEnds(G, c, Point(g.next, 0), x.rest, y, top);
      x := SeqEnds(G, c, f.out, Point(g.next, 0), es, x, y, top);
    }
  }

  lemma {:induction false} CompleteIfElse(e: Expr, top: bool, c: Ctx, p: Point, n: nat, r: Ren, G: seq<Event>,
          es: seq<Event>)
    returns (x: Found)
    requires e.If? && e.elseBranch.Some?
    requires Ok(c, p, n) && PlainE(e, top, c.cl) && ExactF(G, LowerE(e, c, p, n, r), p, n) &&
        PathTo(G, p, es, ExitOf(c))
    ensures RunE(c.cl, e, x.t) && Ends(G, c, LowerE(e, c, p, n, r).out, es, x, top)
    decreases |es|, SizeE(e) + FramesSize(c.frames), 1
  {
    hide Ok, ExactF, PathTo, Lean, TargetOf, Ends, LowerThen, Only;
    var f := LowerE(e.cond, c, p, n, r);
    var g := LowerThen(e.pat, e.thenBranch, c, f.next, f.ren);
    var h := LowerE(e.elseBranch.value, c, Point(g.next + 1, 0), g.next + 2, g.ren);
    LeanE(e.cond, top, c, p, n, r);
    OkBranch(c, f.out, f.next);
    LeanThen(e.pat, e.thenBranch, top, c, f.next, f.ren);
    OkNext2(c, f.out, f.next, g.next);
    LeanE(e.elseBranch.value, top, c, Point(g.next + 1, 0), g.next + 2, g.ren);
    ExactIfElse(G, f, g, h, p, n);
    var m := Point(g.next, 0);
    x := CompleteE(e.cond, top, c, p, n, r, G, es);
    EndsLess(G, c, f.out, es, x, top);
    if Out(x.t) != Normal {
      EarlyEnds(G, c, f.out, m, es, x, top);
    } else {
      OkBlock(c, f.out, f.next);
      PeelJump(G, f.out, x.rest, ExitOf(c), {Jump(f.out, f.next, false), Jump(f.out, g.next + 1, false)});
      var y: Found;
      if x.rest[0] == Jump(f.out, f.next, false) {
        var t: Run;
        OkBlock(c, g.out, g.next);
        y, t := CompleteThen(e.pat, e.thenBranch, top, c, f.next, f.ren, G, x.rest[1..]);
        y := Onward(G, c, g.out, g.next, false, x.rest[1..], y, top);
      } else {
        OkBlock(c, h.out, h.next);
        y := CompleteE(e.elseBranch.value, top, c, Point(g.next + 1, 0), g.next + 2, g.ren, G, x.rest[1..]);
        y := Onward(G, c, h.out, g.next, false, x.rest[1..], y, top);
      }
      JumpEnds(G, c, m, x.rest, y, top);
      x := SeqEnds(G, c, f.out, m, es, x, y, top);
    }
  }

  lemma OkNext2(c: Ctx, p: Point, n: nat, k: nat)
    requires Ok(c, p, n) && k >= n
    ensures Ok(c, Point(k + 1, 0), k + 2)
  {
  }

  lemma {:induction false} CompleteMatch(e: Expr, top: bool, c: Ctx, p: Point, n: nat, r: Ren, G: seq<Event>,
          es: seq<Event>)
    returns (x: Found)
    requires e.Match?
    requires Ok(c, p, n) && PlainE(e, top, c.cl) && ExactF(G, LowerE(e, c, p, n, r), p, n) &&
        PathTo(G, p, es, ExitOf(c))
    ensures RunE(c.cl, e, x.t) && Ends(G, c, LowerE(e, c, p, n, r).out, es, x, top)
    decreases |es|, SizeE(e) + FramesSize(c.frames), 1
  {
    hide Ok, ExactF, PathTo, Lean, TargetOf, Ends, ArmsFrom, ArmsExact, LowerArms;
    var f := LowerE(e.scrutinee, c, p, n, r);
    var m := Point(f.next, 0);
    LeanE(e.scrutinee, top, c, p, n, r);
    MatchExact(e, top, c, p, n, r, G, f);
    x := CompleteE(e.scrutinee, top, c, p, n, r, G, es);
    EndsLess(G, c, f.out, es, x, top);
    OkBlock(c, f.out, f.next);
    if Out(x.t) != Normal {
      EarlyEnds(G, c, f.out, m, es, x, top);
    } else {
      var y: Found;
      if e.arms.NoArm? {
        PeelJump(G, f.out, x.rest, ExitOf(c), {Jump(f.out, f.next, false)});
        EmptyEnds(G, c, m, x.rest[1..], top);
        y := Found(Emit([]), RNil, x.rest[1..]);
        JumpEnds(G, c, m, x.rest, y, top);
      } else {
        FirstMove(G, f.out, x.rest, ExitOf(c));
        OkMerge(c, f.out, f.next);
        y := CompleteArms(e.arms, top, c, f.out, f.next, f.next + 1, f.ren, G, x.rest);
      }
      x := SeqEnds(G, c, f.out, m, es, x, y, top);
    }
  }

  lemma FirstMove(G: seq<Event>, q: Point, es: seq<Event>, z: Point)
    requires PathTo(G, q, es, z) && q != z
    ensures es != [] && Moves(G, es[0], q)
  {
  }

  lemma OkMerge(c: Ctx, p: Point, n: nat)
    requires Ok(c, p, n)
    ensures Ok(c, p, n + 1)
  {
  }

  /** What the graph has at the end of a scrutinee and in the arms. */
  lemma MatchExact(e: Expr, top: bool, c: Ctx, p: Point, n: nat, r: Ren, G: seq<Event>, f: Frag)
    requires e.Match? && f == LowerE(e.scrutinee, c, p, n, r) && Ok(c, f.out, f.next) && Lean(f, p, n)
    requires PlainE(e, top, c.cl) && ExactF(G, LowerE(e, c, p, n, r), p, n)
    ensures ExactF(G, f, p, n)
    ensures e.arms.NoArm? ==>
        Only(G, f.out, {Jump(f.out, f.next, false)}) && LowerE(e, c, p, n, r).out == Point(f.next, 0)
    ensures var g := LowerArms(e.arms, c, f.out, f.next, f.next + 1, f.ren);
      e.arms.Arm? ==> ArmsExact(G, g.log, f.next + 1, g.next) && (forall ev :: Moves(G, ev, f.out) ==> ev in g.log)
                      && LowerE(e, c, p, n, r).out == Point(f.next, 0)
  {
    hide Ok, ExactF, Lean, TargetOf, ArmsFrom, ArmsExact, LowerArms, Only;
    if e.arms.NoArm? {
      ExactClose(G, f, [Jump(f.out, f.next, false)], p, n);
      assert (set ev | ev in [Jump(f.out, f.next, false)]) == {Jump(f.out, f.next, false)};
    } else {
      OkMerge(c, f.out, f.next);
      OkBlock(c, f.out, f.next);
      LeanArms(e.arms, top, c, f.out, f.next, f.next + 1, f.ren);
      ExactMerge(G, f, LowerArms(e.arms, c, f.out, f.next, f.next + 1, f.ren), p, n);
    }
  }

  /** One of the arms, by the first edge of the path. */
  lemma {:induction false} CompleteArms(arms: Arms, top: bool, c: Ctx, q: Point, merge: nat, n: nat, r: Ren,
          G: seq<Event>, es: seq<Event>)
    returns (x: Found)
    requires Ok(c, q, n) && PlainArms(arms, top, c.cl) && merge < n && merge != q.block
    requires ArmsExact(G, LowerArms(arms, c, q, merge, n, r).log, n, LowerArms(arms, c, q, merge, n, r).next)
    requires PathTo(G, q, es, ExitOf(c)) && es != [] && es[0].src == q &&
        es[0] in LowerArms(arms, c, q, merge, n, r).log
    ensures RunArms(c.cl, arms, x.t) && Ends(G, c, Point(merge, 0), es, x, top)
    decreases |es|, SizeArms(arms) + FramesSize(c.frames), 1
  {
    hide Ok, ExactF, PathTo, Lean, TargetOf, Ends, ArmsFrom, ArmsExact, LowerArm, LowerE, Only, PlainE;
    if arms.Arm? {
      var f := LowerArm(arms.pat, arms.guard, arms.body, c, n, r);
      var g := LowerArms(arms.others, c, q, merge, f.next, PopFrame(f.ren));
      OkBranch(c, q, n);
      LeanArm(arms.pat, arms.body, top, c, n, r);
      OkNext(c, q, n, q, f.next);
      LeanArms(arms.others, top, c, q, merge, f.next, PopFrame(f.ren));
      OkBlock(c, q, n);
      ExactArm(G, q, merge, n, f, g);
      if es[0] in g.log {
        x := CompleteArms(arms.others, top, c, q, merge, f.next, PopFrame(f.ren), G, es);
      } else {
        assert es[0] in Branch(q, merge, n, f).log;
        x := CompleteArm(arms, top, c, q, merge, n, r, G, es, f);
      }
    }
  }

  lemma {:induction false} CompleteArm(arms: Arms, top: bool, c: Ctx, q: Point, merge: nat, n: nat, r: Ren,
          G: seq<Event>, es: seq<Event>, f: Frag)
    returns (x: Found)
    requires arms.Arm? && f == LowerArm(arms.pat, arms.guard, arms.body, c, n, r)
    requires Ok(c, q, n) && PlainArms(arms, top, c.cl)
    requires ExactF(G, f, Point(n, 0), n + 1) && Only(G, f.out, {Jump(f.out, merge, false)})
    requires PathTo(G, q, es, ExitOf(c)) && es != [] && es[0] == Jump(q, n, false)
    ensures RunArms(c.cl, arms, x.t) && Ends(G, c, Point(merge, 0), es, x, top)
    decreases |es|, SizeArms(arms) + FramesSize(c.frames), 0
  {
    hide Ok, ExactF, Lean, TargetOf, Ends, LowerArm, LowerE, Only, PlainE;
    var r1 := PushFrame(r, InArm);
    var d := LowerDefs(arms.pat.names, arms.pat.span, Point(n, 0), n + 1, r1);
    var g := LowerE(arms.body, c, d.out, n + 1, d.ren);
    OkBranch(c, q, n);
    LeanArm(arms.pat, arms.body, top, c, n, r);
    LeanE(arms.body, top, c, d.out, n + 1, d.ren);
    ExactCat(G, d, g, Point(n, 0), n + 1);
    OkBlock(c, Point(n, 0), n + 1);
    OkBlock(c, g.out, g.next);
    hide PathTo;
    var v := DefsEnds(arms.pat.names, arms.pat.span, c, Point(n, 0), n + 1, r1, G, es[1..], top);
    EndsLess(G, c, d.out, es[1..], v, top);
    var y := CompleteE(arms.body, top, c, d.out, n + 1, d.ren, G, v.rest);
    x := SeqEnds(G, c, d.out, g.out, es[1..], v, y, top);
    x := Onward(G, c, g.out, merge, false, es[1..], x, top);
    JumpEnds(G, c, Point(merge, 0), es, x, top);
  }

  // ── Exits and cleanup ────────────────────────────────────────────

  lemma {:induction false} CompleteExit(v: Expr, o: Outcome, top: bool, c: Ctx, p: Point, n: nat, r: Ren,
          G: seq<Event>, es: seq<Event>)
    returns (x: Found)
    requires o != Normal && (o == Ret ==> top)
    requires Ok(c, p, n) && PlainE(v, top, c.cl) && PathTo(G, p, es, ExitOf(c))
    requires ExactF(G, LowerExit(LowerE(v, c, p, n, r), o, c), p, n)
    ensures RunExit(c.cl, v, o, x.t) && Ends(G, c, LowerExit(LowerE(v, c, p, n, r), o, c).out, es, x, top)
    decreases |es|, SizeE(v) + FramesSize(c.frames), 4
  {
    hide Ok, ExactF, PathTo, Lean, TargetOf, Ends, LowerE, Unwind, Only, PlainE;
    var f := LowerE(v, c, p, n, r);
    var whole := LowerExit(f, o, c);
    LeanE(v, top, c, p, n, r);
    LeaveExact(f, o, c, p, n, G);
    x := CompleteE(v, top, c, p, n, r, G, es);
    EndsLess(G, c, f.out, es, x, top);
    if Out(x.t) != Normal {
      EarlyEnds(G, c, f.out, whole.out, es, x, top);
    } else {
      var y := CompleteLeave(f, o, top, c, G, x.rest);
      EarlyEnds(G, c, f.out, whole.out, x.rest, y, top);
      x := SeqEnds(G, c, f.out, whole.out, es, x, y, top);
    }
  }

  lemma {:induction false} CompleteContinue(l: Label, top: bool, c: Ctx, p: Point, n: nat, r: Ren, G: seq<Event>,
          es: seq<Event>)
    returns (x: Found)
    requires Ok(c, p, n) && PathTo(G, p, es, ExitOf(c)) && ExactF(G, LowerExit(Frag([], p, n, r), Cont(l), c), p, n)
    ensures x.t == Exit(Cont(l)) && Ends(G, c, LowerExit(Frag([], p, n, r), Cont(l), c).out, es, x, top)
    decreases |es|, FramesSize(c.frames), 4
  {
    hide Ok, ExactF, PathTo, TargetOf, Ends, Unwind, Only, LowerExit;
    var f := Frag([], p, n, r);
    OkBlock(c, p, n);
    LeaveExact(f, Cont(l), c, p, n, G);
    x := CompleteLeave(f, Cont(l), top, c, G, es);
    EarlyEnds(G, c, f.out, LowerExit(f, Cont(l), c).out, es, x, top);
  }

  /** What the graph has where an exit leaves, for a resolved and an unresolved target. */
  ghost predicate Leaving(f: Frag, o: Outcome, c: Ctx, G: seq<Event>)
    requires o != Normal
  {
    match TargetOf(c, o)
    case None => Only(G, f.out, {})
    case Some(t) =>
      var g := Unwind(o, c, f.out, f.next, f.ren);
      && ChainExact(G, g, f.next) && Only(G, g.out, {Jump(g.out, t.dst, t.back)})
      && (g.out != f.out ==> Only(G, f.out, {Jump(f.out, f.next, false)}))
      && ChainAt(g, f.out, f.next, t.bodies == [])
      && PlainBodies(t.bodies, c.cl)
  }

  lemma LeaveExact(f: Frag, o: Outcome, c: Ctx, p: Point, n: nat, G: seq<Event>)
    requires o != Normal && Lean(f, p, n) && Ok(c, f.out, f.next) && ExactF(G, LowerExit(f, o, c), p, n)
    ensures ExactF(G, f, p, n) && Leaving(f, o, c, G)
  {
    hide Lean, ExactF, ChainExact, PlainFrames, Only, PlainB, TargetOf;
    match TargetOf(c, o)
    case None =>

      var none: seq<Event> := [];
      ExactClose(G, f, none, p, n);
      assert (set ev | ev in none) == {};
    case Some(t) =>
      var g := Unwind(o, c, f.out, f.next, f.ren);
      TargetPlain(c, o);
      LeanChain(t.bodies, c, f.out, f.next, f.ren);
      ExactLeave(G, f, g, t.dst, t.back, p, n);
  }

  lemma {:induction false} CompleteLeave(f: Frag, o: Outcome, top: bool, c: Ctx, G: seq<Event>, es: seq<Event>)
    returns (x: Found)
    requires o != Normal && (o == Ret ==> top) && Ok(c, f.out, f.next) && Leaving(f, o, c, G) &&
        PathTo(G, f.out, es, ExitOf(c))
    ensures x.t == Exit(o) && Ends(G, c, f.out, es, x, top)
    decreases |es|, FramesSize(c.frames), 3
  {
    hide Ok, PathTo, ChainExact, Lean, ChainStart, TargetOf, PlainB;
    OkBlock(c, f.out, f.next);
    match TargetOf(c, o)
    case None => PeelJump(G, f.out, es, ExitOf(c), {});
    case Some(t) =>
      TargetSize(c, o);
      var g := Unwind(o, c, f.out, f.next, f.ren);
      if t.bodies != [] {
        PeelJump(G, f.out, es, ExitOf(c), {Jump(f.out, f.next, false)});
      }
      var ts, rest := CompleteChain(t.bodies, c, f.out, f.next, f.ren, G, es);
      ChainOut(c, g, f.out, f.next, t.bodies == []);
      PeelJump(G, g.out, rest, ExitOf(c), {Jump(g.out, t.dst, t.back)});
      x := Found(Exit(o), ts, rest[1..]);
      assert [] + (TraceAll(ts) + Labels1(rest[1..])) == TraceAll(ts) + Labels1(rest[1..]);
  }

  lemma ChainOut(c: Ctx, g: Frag, p: Point, n: nat, empty: bool)
    requires Ok(c, p, n) && ChainAt(g, p, n, empty)
    ensures g.out != ExitOf(c) && g.out.block != c.exit
  {
  }

  lemma {:induction false} CompleteQuestion(e: Expr, top: bool, c: Ctx, p: Point, n: nat, r: Ren, G: seq<Event>,
          es: seq<Event>)
    returns (x: Found)
    requires e.Question?
    requires Ok(c, p, n) && PlainE(e, top, c.cl) && ExactF(G, LowerE(e, c, p, n, r), p, n) &&
        PathTo(G, p, es, ExitOf(c))
    ensures RunE(c.cl, e, x.t) && Ends(G, c, LowerE(e, c, p, n, r).out, es, x, top)
    decreases |es|, SizeE(e) + FramesSize(c.frames), 1
  {
    hide Ok, ExactF, PathTo, Lean, Ends, Only, ChainExact, ChainAt, PlainB;
    var f := LowerE(e.inner, c, p, n, r);
    var g := Unwind(Ret, c, f.out, f.next, f.ren);
    var out := Point(g.next, 0);
    LeanE(e.inner, top, c, p, n, r);
    QuestionExact(e, c, p, n, r, G, f);
    x := CompleteE(e.inner, top, c, p, n, r, G, es);
    EndsLess(G, c, f.out, es, x, top);
    OkBlock(c, f.out, f.next);
    if Out(x.t) != Normal {
      EarlyEnds(G, c, f.out, out, es, x, top);
    } else {
      FirstMove(G, f.out, x.rest, ExitOf(c));
      if x.rest[0] == Jump(f.out, g.next, false) {
        x := SkipJump(G, c, f.out, g.next, es, x, top);
      } else {
        var y := CompleteFail(f, c, G, x.rest);
        EarlyEnds(G, c, f.out, out, x.rest, y, top);
        x := SeqEnds(G, c, f.out, out, es, x, y, top);
      }
    }
  }

  /** A path that goes on with a given edge. */
  lemma SkipJump(G: seq<Event>, c: Ctx, q: Point, m: nat, es: seq<Event>, x: Found, top: bool) returns (y: Found)
    requires Ends(G, c, q, es, x, top) && Out(x.t) == Normal && x.rest != [] && x.rest[0] == Jump(q, m, false)
    ensures y.t == x.t && Ends(G, c, Point(m, 0), es, y, top)
  {
    y := Found(x.t, x.cs, x.rest[1..]);
    assert [] + Labels1(x.rest[1..]) == Labels1(x.rest[1..]);
  }

  /** What the graph has at a `?`: on to the next block, or out of the function. */
  ghost predicate Failing(f: Frag, c: Ctx, G: seq<Event>) {
    var t := TargetOf(c, Ret).value;
    var g := Unwind(Ret, c, f.out, f.next, f.ren);
    && ChainExact(G, g, f.next) && ChainAt(g, f.out, f.next, t.bodies == [])
    && PlainBodies(t.bodies, c.cl)
    && Only(G, f.out, {Jump(f.out, if t.bodies == [] then c.exit else f.next, false), Jump(f.out, g.next, false)})
    && (t.bodies != [] ==> Only(G, g.out, {Jump(g.out, c.exit, false)}))
  }

  lemma QuestionExact(e: Expr, c: Ctx, p: Point, n: nat, r: Ren, G: seq<Event>, f: Frag)
    requires e.Question? && f == LowerE(e.inner, c, p, n, r) && Lean(f, p, n) && Ok(c, f.out, f.next)
    requires ExactF(G, LowerE(e, c, p, n, r), p, n)
    ensures ExactF(G, f, p, n) && Failing(f, c, G)
    ensures LowerE(e, c, p, n, r).out == Point(Unwind(Ret, c, f.out, f.next, f.ren).next, 0)
  {
    hide Lean, ExactF, ChainExact, PlainFrames, Only, PlainB;
    var t := TargetOf(c, Ret).value;
    TargetPlain(c, Ret);
    var g := Unwind(Ret, c, f.out, f.next, f.ren);
    LeanChain(t.bodies, c, f.out, f.next, f.ren);
    LeanOut(f, p, n);
    ExactQuestion(G, f, g, c.exit, p, n);
  }

  lemma LeanOut(f: Frag, p: Point, n: nat)
    requires Lean(f, p, n)
    ensures f.out.block < f.next && f.next >= n
  {
  }

  lemma {:induction false} CompleteFail(f: Frag, c: Ctx, G: seq<Event>, es: seq<Event>) returns (x: Found)
    requires Ok(c, f.out, f.next) && Failing(f, c, G) && PathTo(G, f.out, es, ExitOf(c))
    requires es != [] && es[0] != Jump(f.out, Unwind(Ret, c, f.out, f.next, f.ren).next, false)
    ensures x.t == Exit(Ret) && Ends(G, c, f.out, es, x, true)
    decreases |es|, FramesSize(c.frames), 3
  {
    hide Ok, PathTo, ChainExact, Lean, ChainStart, PlainB;
    OkBlock(c, f.out, f.next);
    var t := TargetOf(c, Ret).value;
    TargetSize(c, Ret);
    var g := Unwind(Ret, c, f.out, f.next, f.ren);
    PeelJump(G, f.out, es, ExitOf(c),
        {Jump(f.out, if t.bodies == [] then c.exit else f.next, false), Jump(f.out, g.next, false)});
    if t.bodies == [] {
      x := Found(Exit(Ret), RNil, es[1..]);
      assert [] + ([] + Labels1(es[1..])) == Labels1(es[1..]);
    } else {
      var ts, rest := CompleteChain(t.bodies, c, f.out, f.next, f.ren, G, es);
      ChainOut(c, g, f.out, f.next, false);
      PeelJump(G, g.out, rest, ExitOf(c), {Jump(g.out, c.exit, false)});
      x := Found(Exit(Ret), ts, rest[1..]);
      assert [] + (TraceAll(ts) + Labels1(rest[1..])) == TraceAll(ts) + Labels1(rest[1..]);
    }
  }

  lemma {:induction false} CompleteChain(bs: seq<Block>, c: Ctx, p: Point, n: nat, r: Ren, G: seq<Event>,
          es: seq<Event>)
    returns (ts: Runs, rest: seq<Event>)
    requires p.block < n && c.exit < n && p.block != c.exit && PlainBodies(bs, c.cl)
    requires ChainExact(G, LowerChain(bs, c, p, n, r), n) && PathTo(G, p, es, ExitOf(c))
    requires bs != [] ==> es != [] && es[0] == Jump(p, n, false)
    ensures RunBodies(c.cl, bs, ts) && PathTo(G, LowerChain(bs, c, p, n, r).out, rest, ExitOf(c))
    ensures |rest| <= |es| && Labels1(es) == TraceAll(ts) + Labels1(rest)
    decreases |es|, BodiesSize(bs), 2
  {
    hide ChainExact, Lean, ChainStart, PlainB, LowerBlock, Ends, ExactF, Ok;
    if bs == [] {
      ts, rest := RNil, es;
      assert [] + Labels1(es) == Labels1(es);
    } else {
      var c1 := CleanupCtx(c);
      var f := LowerBlock(bs[0], c1, Point(n, 0), n + 1, PushFrame(r, Cu));
      var g := LowerChain(bs[1..], c, f.out, f.next, PopFrame(f.ren));
      CleanupOk(c, n);
      LeanBlock(bs[0], false, c1, Point(n, 0), n + 1, PushFrame(r, Cu));
      CleanupBlock(c, f, n);
      LeanChain(bs[1..], c, f.out, f.next, PopFrame(f.ren));
      ExactChain(G, p, n, f, g);
      var x := CompleteBlock(bs[0], false, c1, Point(n, 0), n + 1, PushFrame(r, Cu), G, es[1..]);
      CleanupNormal(G, c, f.out, es[1..], x);
      if bs[1..] != [] {
        PeelJump(G, f.out, x.rest, ExitOf(c), {Jump(f.out, f.next, false)});
      }
      var tl: Runs;
      tl, rest := CompleteChain(bs[1..], c, f.out, f.next, PopFrame(f.ren), G, x.rest);
      ts := RCons(x.t, tl);
      ChainTrace(es, x.rest, rest, x.t, tl);
    }
  }

  lemma ChainTrace(es: seq<Event>, mid: seq<Event>, rest: seq<Event>, t: Run, tl: Runs)
    requires es != [] && es[0].Jump? && Labels1(es[1..]) == Trace(t) + Labels1(mid) &&
        Labels1(mid) == TraceAll(tl) + Labels1(rest)
    ensures Labels1(es) == TraceAll(RCons(t, tl)) + Labels1(rest)
  {
    assert [] + Labels1(es[1..]) == Labels1(es[1..]);
    Assoc(Trace(t), TraceAll(tl), Labels1(rest));
  }

  lemma CleanupBlock(c: Ctx, f: Frag, n: nat)
    requires Ok(CleanupCtx(c), f.out, f.next) && Lean(f, Point(n, 0), n + 1)
    ensures f.out.block != c.exit && f.out.block < f.next && c.exit < f.next && n < f.next
  {
  }

  /** A cleanup body can only end normally: it cannot return and leaves no loop. */
  lemma CleanupNormal(G: seq<Event>, c: Ctx, out: Point, es: seq<Event>, x: Found)
    requires Ends(G, CleanupCtx(c), out, es, x, false)
    ensures Out(x.t) == Normal && PathTo(G, out, x.rest, ExitOf(c)) && |x.rest| <= |es| &&
        Labels1(es) == Trace(x.t) + Labels1(x.rest)
  {
  }

  // ── Scopes ───────────────────────────────────────────────────────

  lemma {:induction false} CompleteBlock(b: Block, top: bool, c: Ctx, p: Point, n: nat, r: Ren, G: seq<Event>,
          es: seq<Event>)
    returns (x: Found)
    requires Ok(c, p, n) && PlainB(b, top, c.cl) && ExactF(G, LowerBlock(b, c, p, n, r), p, n) &&
        PathTo(G, p, es, ExitOf(c))
    ensures RunB(c.cl, b, [], x.t) && Ends(G, c, LowerBlock(b, c, p, n, r).out, es, x, top)
    decreases |es|, SizeB(b) + FramesSize(c.frames), 3
  {
    hide Ok, PathTo, Ends, LowerRest;
    x := CompleteRest(b, [], top, c, p, n, r, G, es);
  }

  /** Cleanup runs of two scopes are those of the inner and those of the outer. */
  lemma {:induction false} SplitRuns(cl: Classification, a: seq<Block>, b: seq<Block>, ts: Runs)
    returns (own: Runs, outer: Runs)
    requires RunBodies(cl, a + b, ts)
    ensures RunBodies(cl, a, own) && RunBodies(cl, b, outer) && TraceAll(ts) == TraceAll(own) + TraceAll(outer)
    decreases |a|
  {
    if a == [] {
      assert a + b == b;
      own, outer := RNil, ts;
      assert [] + TraceAll(ts) == TraceAll(ts);
    } else {
      assert (a + b)[1..] == a[1..] + b;
      var o1: Runs;
      o1, outer := SplitRuns(cl, a[1..], b, ts.tail);
      own := RCons(ts.head, o1);
      Assoc(Trace(ts.head), TraceAll(o1), TraceAll(outer));
    }
  }

  /** An exit leaves a scope: the scope runs its own items, the rest is left to the scopes outside. */
  lemma LeaveScope(G: seq<Event>, c: Ctx, items: seq<Item>, mid: Point, out: Point, es: seq<Event>, x: Found, top: bool)
    returns (w: Found)
    requires Scoped(c) && Ends(G, InScope(c, items), mid, es, x, top) && Out(x.t) != Normal
    ensures w.t.Finally? && w.t.inner == x.t && RunBodies(c.cl, FrameBodies(items, Out(x.t) == Ret), w.t.cleanup)
    ensures Ends(G, c, out, es, w, top)
  {
    var o := Out(x.t);
    ScopeTarget(c, items, o);
    var own, outer := SplitRuns(c.cl, FrameBodies(items, o == Ret), TargetOf(c, o).value.bodies, x.cs);
    w := Found(Finally(x.t, own), outer, x.rest);
    Assoc3(Trace(x.t), TraceAll(own), TraceAll(outer), Labels1(x.rest));
  }

  lemma Assoc3(a: seq<UseSite>, b: seq<UseSite>, c: seq<UseSite>, d: seq<UseSite>)
    ensures a + ((b + c) + d) == (a + b) + (c + d)
  {
  }

  lemma {:induction false} CompleteRest(b: Block, items: seq<Item>, top: bool, c: Ctx, p: Point, n: nat, r: Ren,
          G: seq<Event>, es: seq<Event>)
    returns (x: Found)
    requires Ok(c, p, n) && PlainB(b, top, c.cl) && PlainItems(items, c.cl)
    requires ExactF(G, LowerRest(b, items, c, p, n, r), p, n) && PathTo(G, p, es, ExitOf(c))
    ensures RunB(c.cl, b, items, x.t) && Ends(G, c, LowerRest(b, items, c, p, n, r).out, es, x, top)
    decreases |es|, SizeB(b) + ItemsSize(items) + FramesSize(c.frames), 2
  {
    hide Ok, PathTo, Ends, ExactF, PlainItems, LowerPlain, LowerE;
    match b
    case Done(e) => x := CompleteDone(e, items, top, c, p, n, r, G, es);
    case Then(s, rest) =>
      match s
      case Defer(body) =>
        PushPlain(items, Item(false, body), c.cl);
        PushSize(items, Item(false, body));
        assert SizeB(b) == 1 + SizeS(s) + SizeB(rest) && SizeS(s) == 1 + SizeB(body);
        x := CompleteRest(rest, Push(items, Item(false, body)), top, c, p, n, r, G, es);
      case ErrDefer(body) =>
        PushPlain(items, Item(true, body), c.cl);
        PushSize(items, Item(true, body));
        assert SizeB(b) == 1 + SizeS(s) + SizeB(rest) && SizeS(s) == 1 + SizeB(body);
        x := CompleteRest(rest, Push(items, Item(true, body)), top, c, p, n, r, G, es);
      case LetElse(_, _, _) => x := CompleteLetElse(s, rest, items, top, c, p, n, r, G, es);
      case Let(_, _) => x := CompleteThenRest(s, rest, items, top, c, p, n, r, G, es);
      case LetUninit(_) => x := CompleteThenRest(s, rest, items, top, c, p, n, r, G, es);
      case Assign(_, _) => x := CompleteThenRest(s, rest, items, top, c, p, n, r, G, es);
      case ExprStmt(_) => x := CompleteThenRest(s, rest, items, top, c, p, n, r, G, es);
  }

  lemma {:induction false} CompleteDone(e: Expr, items: seq<Item>, top: bool, c: Ctx, p: Point, n: nat, r: Ren,
          G: seq<Event>, es: seq<Event>)
    returns (x: Found)
    requires Ok(c, p, n) && PlainE(e, top, c.cl) && PlainItems(items, c.cl)
    requires ExactF(G, LowerRest(Done(e), items, c, p, n, r), p, n) && PathTo(G, p, es, ExitOf(c))
    ensures RunB(c.cl, Done(e), items, x.t) && Ends(G, c, LowerRest(Done(e), items, c, p, n, r).out, es, x, top)
    decreases |es|, SizeB(Done(e)) + ItemsSize(items) + FramesSize(c.frames), 1
  {
    hide Ok, PathTo, Ends, ExactF, PlainItems, PlainE, LowerE, ChainAt, ChainExact, Lean;
    var c1 := InScope(c, items);
    var f := LowerE(e, c1, p, n, r);
    var bs := FrameBodies(items, false);
    var g := LowerChain(bs, c, f.out, f.next, f.ren);
    FrameBodiesSize(items, false);
    OkScope(c, items, p, n);
    LeanE(e, top, c1, p, n, r);
    OkBlock(c1, f.out, f.next);
    FrameBodiesPlain(items, false, c.cl);
    LeanChain(bs, c, f.out, f.next, f.ren);
    ExactDone(G, f, g, p, n, bs == []);
    x := CompleteE(e, top, c1, p, n, r, G, es);
    EndsLess(G, c1, f.out, es, x, top);
    if Out(x.t) == Normal {
      ChainFirst(G, f, x.rest, ExitOf(c), bs == []);
      var ts, rest := CompleteChain(bs, c, f.out, f.next, f.ren, G, x.rest);
      x := FallThrough(G, c, c1, f.out, g.out, es, x, ts, rest, top);
    } else {
      OkScoped(c, p, n);
      x := LeaveScope(G, c, items, f.out, g.out, es, x, top);
    }
  }

  lemma OkScoped(c: Ctx, p: Point, n: nat)
    requires Ok(c, p, n)
    ensures Scoped(c)
  {
  }

  lemma FallThrough(G: seq<Event>, c: Ctx, c1: Ctx, mid: Point, out: Point, es: seq<Event>, x: Found, ts: Runs,
          rest: seq<Event>, top: bool)
    returns (w: Found)
    requires Ends(G, c1, mid, es, x, top) && Out(x.t) == Normal
    requires PathTo(G, out, rest, ExitOf(c)) && |rest| <= |x.rest| && Labels1(x.rest) == TraceAll(ts) + Labels1(rest)
    ensures w.t == Finally(x.t, ts) && Ends(G, c, out, es, w, top)
  {
    w := Found(Finally(x.t, ts), RNil, rest);
    Assoc(Trace(x.t), TraceAll(ts), Labels1(rest));
  }

  /** A fragment and the cleanup chain behind it. */
  lemma ExactDone(G: seq<Event>, f: Frag, g: Frag, p: Point, n: nat, empty: bool)
    requires Lean(f, p, n) && ChainAt(g, f.out, f.next, empty) && ExactF(G, Cat(f, g), p, n)
    ensures ExactF(G, f, p, n) && ChainExact(G, g, f.next)
    ensures !empty ==> Only(G, f.out, {Jump(f.out, f.next, false)})
  {
    ExactCat(G, f, g, p, n);
  }

  lemma ChainFirst(G: seq<Event>, f: Frag, es: seq<Event>, z: Point, empty: bool)
    requires PathTo(G, f.out, es, z) && f.out != z && (!empty ==> Only(G, f.out, {Jump(f.out, f.next, false)}))
    ensures !empty ==> es != [] && es[0] == Jump(f.out, f.next, false)
  {
  }

  lemma {:induction false} CompleteThenRest(s: Stmt, rest: Block, items: seq<Item>, top: bool, c: Ctx, p: Point,
          n: nat, r: Ren,
                                            G: seq<Event>, es: seq<Event>)
    returns (x: Found)
    requires IsPlain(s)
    requires Ok(c, p, n) && PlainB(Then(s, rest), top, c.cl) && PlainItems(items, c.cl)
    requires ExactF(G, LowerRest(Then(s, rest), items, c, p, n, r), p, n) && PathTo(G, p, es, ExitOf(c))
    ensures RunB(c.cl, Then(s, rest), items, x.t) &&
        Ends(G, c, LowerRest(Then(s, rest), items, c, p, n, r).out, es, x, top)
    decreases |es|, SizeB(Then(s, rest)) + ItemsSize(items) + FramesSize(c.frames), 1
  {
    hide Ok, PathTo, Ends, ExactF, PlainItems, LowerPlain, PlainS, Lean, PlainE, RunS;
    var c1 := InScope(c, items);
    var f := LowerPlain(s, c1, p, n, r);
    var g := LowerRest(rest, items, c, f.out, f.next, f.ren);
    assert LowerRest(Then(s, rest), items, c, p, n, r) == Cat(f, g);
    OkScope(c, items, p, n);
    LeanPlain(s, top, c1, p, n, r);
    LeanNext(c, f, p, n);
    LeanRest(rest, items, top, c, f.out, f.next, f.ren);
    ExactCat(G, f, g, p, n);
    x := CompletePlain(s, top, c1, p, n, r, G, es);
    EndsLess(G, c1, f.out, es, x, top);
    if Out(x.t) == Normal {
      var y := CompleteRest(rest, items, top, c, f.out, f.next, f.ren, G, x.rest);
      OtherCtx(G, c1, c, f.out, es, x, top);
      x := SeqEnds(G, c, f.out, g.out, es, x, y, top);
    } else {
      OkScoped(c, p, n);
      x := LeaveScope(G, c, items, f.out, g.out, es, x, top);
    }
  }

  lemma PassEnds(G: seq<Event>, c: Ctx, out: Point, es: seq<Event>, x: Found, top: bool)
    requires es != [] && es[0].Step? && es[0].use.None? && Ends(G, c, out, es[1..], x, top)
    ensures Ends(G, c, out, es, x, top)
  {
    assert [] + Labels1(es[1..]) == Labels1(es[1..]);
  }

  /** Behind the value of a let-else: into the diverging block, or past it. */
  lemma PeelAside(G: seq<Event>, q: Point, d: nat, es: seq<Event>, z: Point)
    requires PathTo(G, q, es, z) && Only(G, q, {Jump(q, d, false), Step(q, None)}) && q != z
    ensures es != [] && (es[0] == Jump(q, d, false) || es[0] == Step(q, None)) && PathTo(G, Target1(es[0]), es[1..], z)
  {
  }

  /** A diverging block that falls through leads nowhere. */
  lemma NoFallThrough(G: seq<Event>, c: Ctx, q: Point, es: seq<Event>, x: Found, top: bool)
    requires Ends(G, c, q, es, x, top) && Only(G, q, {}) && q.block != c.exit
    ensures Out(x.t) != Normal
  {
  }

  lemma {:induction false} CompleteLetElse(s: Stmt, rest: Block, items: seq<Item>, top: bool, c: Ctx, p: Point, n: nat,
          r: Ren,
                                           G: seq<Event>, es: seq<Event>)
    returns (x: Found)
    requires s.LetElse?
    requires Ok(c, p, n) && PlainB(Then(s, rest), top, c.cl) && PlainItems(items, c.cl)
    requires ExactF(G, LowerRest(Then(s, rest), items, c, p, n, r), p, n) && PathTo(G, p, es, ExitOf(c))
    ensures RunB(c.cl, Then(s, rest), items, x.t) &&
        Ends(G, c, LowerRest(Then(s, rest), items, c, p, n, r).out, es, x, top)
    decreases |es|, SizeB(Then(s, rest)) + ItemsSize(items) + FramesSize(c.frames), 1
  {
    hide Ok, PathTo, Ends, ExactF, PlainItems, Lean, PlainE, LowerE, LowerBlock, NoteAll, AnySeen, Only;
    var c1 := InScope(c, items);
    var f := LowerE(s.value, c1, p, n, r);
    var r0 := NoteAll(s.pat.names, f.ren);
    var g := LowerBlock(s.diverge, c1, Point(f.next, 0), f.next + 1, r0);
    var k := Aside(f, g);
    var r1 := if AnySeen(s.pat.names, f.ren) then NoteAll(s.pat.names, PushFrame(g.ren, Sh)) else g.ren;
    var h := LowerRest(rest, items, c, k.out, k.next, r1);
    assert LowerRest(Then(s, rest), items, c, p, n, r) == Cat(k, h);
    OkScope(c, items, p, n);
    LeanE(s.value, top, c1, p, n, r);
    OkBranch(c1, f.out, f.next);
    LeanBlock(s.diverge, top, c1, Point(f.next, 0), f.next + 1, r0);
    OkPast(c, items, f, g, p, n);
    LeanRest(rest, items, top, c, k.out, k.next, r1);
    ExactAside(G, f, g, h, p, n);
    ScopeSize(c, items);
    assert SizeB(Then(s, rest)) == 1 + SizeS(s) + SizeB(rest) && SizeS(s) == 1 + SizeE(s.value) + SizeB(s.diverge);
    x := CompleteE(s.value, top, c1, p, n, r, G, es);
    EndsLess(G, c1, f.out, es, x, top);
    if Out(x.t) == Normal {
      OkBlock(c1, f.out, f.next);
      OkBlock(c1, g.out, g.next);
      PeelAside(G, f.out, f.next, x.rest, ExitOf(c));
      if x.rest[0].Jump? {
        var y := CompleteBlock(s.diverge, top, c1, Point(f.next, 0), f.next + 1, r0, G, x.rest[1..]);
        NoFallThrough(G, c1, g.out, x.rest[1..], y, top);
        JumpEnds(G, c1, g.out, x.rest, y, top);
        x := SeqEnds(G, c1, f.out, g.out, es, x, y, top);
        OkScoped(c, p, n);
        x := LeaveScope(G, c, items, g.out, h.out, es, x, top);
      } else {
        var y := CompleteRest(rest, items, top, c, k.out, k.next, r1, G, x.rest[1..]);
        PassEnds(G, c, h.out, x.rest, y, top);
        OtherCtx(G, c1, c, f.out, es, x, top);
        x := SeqEnds(G, c, f.out, h.out, es, x, y, top);
      }
    } else {
      OkScoped(c, p, n);
      x := LeaveScope(G, c, items, f.out, h.out, es, x, top);
    }
  }

  lemma OkPast(c: Ctx, items: seq<Item>, f: Frag, g: Frag, p: Point, n: nat)
    requires Ok(c, p, n) && Lean(f, p, n) && Lean(g, Point(f.next, 0), f.next + 1)
    ensures Ok(c, Aside(f, g).out, g.next)
  {
  }

  lemma LeanNext(c: Ctx, f: Frag, p: Point, n: nat)
    requires Ok(c, p, n) && Lean(f, p, n)
    ensures Ok(c, f.out, f.next)
  {
  }

  /** A normal end does not depend on the scopes around it. */
  lemma OtherCtx(G: seq<Event>, c: Ctx, d: Ctx, out: Point, es: seq<Event>, x: Found, top: bool)
    requires Ends(G, c, out, es, x, top) && Out(x.t) == Normal && c.exit == d.exit
    ensures Ends(G, d, out, es, x, top)
  {
  }

  lemma {:induction false} CompletePlain(s: Stmt, top: bool, c: Ctx, p: Point, n: nat, r: Ren, G: seq<Event>,
          es: seq<Event>)
    returns (x: Found)
    requires IsPlain(s)
    requires Ok(c, p, n) && PlainS(s, top, c.cl) && ExactF(G, LowerPlain(s, c, p, n, r), p, n) &&
        PathTo(G, p, es, ExitOf(c))
    ensures RunS(c.cl, s, x.t) && Ends(G, c, LowerPlain(s, c, p, n, r).out, es, x, top)
    decreases |es|, SizeS(s) + FramesSize(c.frames), 3
  {
    hide Ok, PathTo, Ends, ExactF, LowerE, Lean, PlainE;
    StmtExprSize(s);
    PlainStmtExpr(s, top, c.cl);
    var e := StmtExpr(s);
    var f := LowerE(e, c, p, n, r);
    var g := LowerIntro(s, f.out, f.next, f.ren);
    LeanPlain(s, top, c, p, n, r);
    ExactCat(G, f, g, p, n);
    x := CompleteE(e, top, c, p, n, r, G, es);
    EndsLess(G, c, f.out, es, x, top);
    if Out(x.t) == Normal {
      OkBlock(c, f.out, f.next);
      var y := IntroEnds(s, c, f.out, f.next, f.ren, G, x.rest, top);
      x := SeqEnds(G, c, f.out, g.out, es, x, y, top);
    } else {
      EarlyEnds(G, c, f.out, g.out, es, x, top);
    }
  }

  lemma IntroEnds(s: Stmt, c: Ctx, p: Point, n: nat, r: Ren, G: seq<Event>, es: seq<Event>, top: bool)
    returns (x: Found)
    requires IsPlain(s) && p.block < n && p.block != c.exit && ExactF(G, LowerIntro(s, p, n, r), p, n) &&
        PathTo(G, p, es, ExitOf(c))
    ensures x.t == Emit(IntroUses(s)) && Ends(G, c, LowerIntro(s, p, n, r).out, es, x, top)
  {
    hide PathTo, Ends, ExactF;
    if s.Let? {
      x := DefsEnds(s.pat.names, s.pat.span, c, p, n, ShadowIfSeen(s.pat.names, r), G, es, top);
    } else {
      EmptyEnds(G, c, p, es, top);
      x := Found(Emit([]), RNil, es);
    }
  }

  // ── Loops ────────────────────────────────────────────────────────

  lemma {:induction false} CompleteFor(e: Expr, top: bool, c: Ctx, p: Point, n: nat, r: Ren, G: seq<Event>,
          es: seq<Event>)
    returns (x: Found)
    requires e.For?
    requires Ok(c, p, n) && PlainE(e, top, c.cl) && ExactF(G, LowerE(e, c, p, n, r), p, n) &&
        PathTo(G, p, es, ExitOf(c))
    ensures RunE(c.cl, e, x.t) && Ends(G, c, LowerE(e, c, p, n, r).out, es, x, top)
    decreases |es|, SizeE(e) + FramesSize(c.frames), 1
  {
    hide Ok, ExactF, PathTo, Lean, TargetOf, Ends, LowerLoop, RunLoop;
    var f := LowerE(e.iterable, c, p, n, r);
    var g := LowerLoop(Some(Leaf), Some(e.pat), e.lbl, e.body, c, f.out, f.next, f.ren);
    LeanE(e.iterable, top, c, p, n, r);
    LeanLoop(Some(Leaf), Some(e.pat), e.lbl, e.body, top, c, f.out, f.next, f.ren);
    ExactCat(G, f, g, p, n);
    x := CompleteE(e.iterable, top, c, p, n, r, G, es);
    EndsLess(G, c, f.out, es, x, top);
    if Out(x.t) == Normal {
      var y := CompleteLoop(Some(Leaf), Some(e.pat), e.lbl, e.body, top, c, f.out, f.next, f.ren, G, x.rest);
      x := SeqEnds(G, c, f.out, g.out, es, x, y, top);
    } else {
      EarlyEnds(G, c, f.out, g.out, es, x, top);
    }
  }

  predicate PlainCond(cond: Option<Expr>, top: bool, cl: Classification) {
    cond.Some? ==> PlainE(cond.value, top, cl)
  }

  lemma LeanLoop(cond: Option<Expr>, pat: Option<Pat>, lbl: Label, b: Block, top: bool, c: Ctx, p: Point, n: nat,
          r: Ren)
    requires Ok(c, p, n) && PlainCond(cond, top, c.cl) && PlainB(b, top, c.cl)
    ensures Lean(LowerLoop(cond, pat, lbl, b, c, p, n, r), p, n)
  {
    hide Lean, FitsE, FitsB, PlainE, PlainB, LowerLoop;
    OkFits(c);
    FitB(b, top, c.cl);
    if cond.Some? { FitE(cond.value, top, c.cl); }
    GoodLoop(cond, pat, lbl, b, c, p, n, r, M(c));
    GoodLean(LowerLoop(cond, pat, lbl, b, c, p, n, r), Exits(c, LoopLeaves(cond, lbl, b, c)), p, n, M(c));
  }

  /** What the graph has at a loop's condition `f`. */
  ghost predicate HeadAt(G: seq<Event>, e: Expr, pat: Option<Pat>, c: Ctx, n: nat, r: Ren) {
    var f := LowerE(e, c, Point(n, 0), n + 1, r);
    && Ok(c, Point(n, 0), n + 1) && Ok(c, f.out, f.next) && ExactF(G, f, Point(n, 0), n + 1)
    && Only(G, f.out, {Jump(f.out, f.next, false), Jump(f.out, f.next + 1, false)})
    && ExactF(G, HeadDefs(pat, f), Point(f.next, 0), f.next + 2)
  }

  /** What the graph has in a loop's body, which starts at the end of `h`, and at its end. */
  ghost predicate BodyAt(G: seq<Event>, h: Frag, lbl: Label, b: Block, c: Ctx, n: nat) {
    h.next > 0 &&
    var c1 := InLoop(c, lbl, h.next - 1, n);
    var g := LowerBlock(b, c1, h.out, h.next, h.ren);
    Ok(c1, h.out, h.next) && ExactF(G, g, h.out, h.next) && Only(G, g.out, {Jump(g.out, n, true)}) &&
        g.out.block != c.exit
  }

  function HeadDefs(pat: Option<Pat>, f: Frag): (d: Frag)
    ensures d.next == f.next + 2 && d.out.block == f.next
  {
    match pat
    case None => Frag([], Point(f.next, 0), f.next + 2, f.ren)
    case Some(pt) => LowerDefs(pt.names, pt.span, Point(f.next, 0), f.next + 2, PushFrame(f.ren, InFor))
  }

  lemma HeadAsCat(e: Expr, pat: Option<Pat>, c: Ctx, p: Point, n: nat, r: Ren)
    ensures var f := LowerE(e, c, Point(n, 0), n + 1, r);
        LowerHead(Some(e), pat, c, p, n, r) == Cat(Heading(p, n, f), HeadDefs(pat, f))
  {
    var f := LowerE(e, c, Point(n, 0), n + 1, r);
    assert Heading(p, n, f).log + [] == Heading(p, n, f).log;
  }

  lemma LeanHeadDefs(pat: Option<Pat>, f: Frag)
    ensures Lean(HeadDefs(pat, f), Point(f.next, 0), f.next + 2)
  {
    if pat.Some? {
      LeanDefs(pat.value.names, pat.value.span, Point(f.next, 0), f.next + 2, PushFrame(f.ren, InFor));
    }
  }

  lemma LoopExact(lbl: Label, b: Block, top: bool, c: Ctx, p: Point, n: nat, r: Ren, G: seq<Event>)
    requires Ok(c, p, n) && PlainB(b, top, c.cl) && ExactF(G, LowerLoop(None, None, lbl, b, c, p, n, r), p, n)
    ensures Only(G, p, {Jump(p, n, false)}) && BodyAt(G, LowerHead(None, None, c, p, n, r), lbl, b, c, n)
  {
    hide Lean, ExactF, PlainB, LowerBlock, Only, PlainFrames;
    var h := LowerHead(None, None, c, p, n, r);
    var c1 := InLoop(c, lbl, h.next - 1, n);
    OkLoop(c, lbl, h.next - 1, n, h.out, h.next);
    var g := LowerBlock(b, c1, h.out, h.next, h.ren);
    LeanBlock(b, top, c1, h.out, h.next, h.ren);
    OkBlock(c1, g.out, g.next);
    ExactLoop(G, p, n, h, g, g.ren);
  }

  lemma WhileExact(e: Expr, pat: Option<Pat>, lbl: Label, b: Block, top: bool, c: Ctx, p: Point, n: nat, r: Ren,
          G: seq<Event>)
    requires Ok(c, p, n) && PlainE(e, top, c.cl) && PlainB(b, top, c.cl) &&
        ExactF(G, LowerLoop(Some(e), pat, lbl, b, c, p, n, r), p, n)
    ensures Only(G, p, {Jump(p, n, false)}) && BodyAt(G, LowerHead(Some(e), pat, c, p, n, r), lbl, b, c, n)
    ensures HeadAt(G, e, pat, c, n, r)
  {
    hide Lean, ExactF, PlainB, PlainE, LowerBlock, LowerE, Only, PlainFrames, LowerDefs, Ok;
    var f := LowerE(e, c, Point(n, 0), n + 1, r);
    var d := HeadDefs(pat, f);
    var h := LowerHead(Some(e), pat, c, p, n, r);
    HeadAsCat(e, pat, c, p, n, r);
    OkBranch(c, p, n);
    LeanE(e, top, c, Point(n, 0), n + 1, r);
    LeanHeadDefs(pat, f);
    var c1 := InLoop(c, lbl, h.next - 1, n);
    OkBody(c, lbl, n, f, d, p);
    var g := LowerBlock(b, c1, h.out, h.next, h.ren);
    LeanBlock(b, top, c1, h.out, h.next, h.ren);
    OkBlock(c1, g.out, g.next);
    OkBlock(c, p, n);
    ExactWhile(G, p, n, f, d, g, if pat.Some? then PopFrame(g.ren) else g.ren);
  }

  lemma OkBody(c: Ctx, lbl: Label, n: nat, f: Frag, d: Frag, p: Point)
    requires Ok(c, p, n) && Lean(f, Point(n, 0), n + 1) && d.next == f.next + 2 && d.out.block == f.next
    ensures Ok(InLoop(c, lbl, d.next - 1, n), d.out, d.next)
  {
    hide PlainFrames;
    OkLoop(c, lbl, d.next - 1, n, d.out, d.next);
  }

  lemma {:induction false} CompleteLoop(cond: Option<Expr>, pat: Option<Pat>, lbl: Label, b: Block, top: bool, c: Ctx,
          p: Point, n: nat, r: Ren,
                                        G: seq<Event>, es: seq<Event>)
    returns (x: Found)
    requires cond.None? ==> pat.None?
    requires Ok(c, p, n) && PlainCond(cond, top, c.cl) && PlainB(b, top, c.cl)
    requires ExactF(G, LowerLoop(cond, pat, lbl, b, c, p, n, r), p, n) && PathTo(G, p, es, ExitOf(c))
    ensures RunLoop(c.cl, cond, pat, lbl, b, x.t) &&
        Ends(G, c, LowerLoop(cond, pat, lbl, b, c, p, n, r).out, es, x, top)
    decreases |es|, CondSize(cond) + 2 + SizeB(b) + FramesSize(c.frames), 3
  {
    hide Ok, PathTo, Ends, ExactF, PlainE, PlainB, LowerE, LowerHead, RunLoop, Only;
    OkBlock(c, p, n);
    match cond {
      case None => LoopExact(lbl, b, top, c, p, n, r, G);
      case Some(e) => WhileExact(e, pat, lbl, b, top, c, p, n, r, G);
    }
    PeelJump(G, p, es, ExitOf(c), {Jump(p, n, false)});
    x := CompleteHeader(cond, pat, lbl, b, top, c, p, n, r, G, es[1..]);
    JumpEnds(G, c, LowerLoop(cond, pat, lbl, b, c, p, n, r).out, es, x, top);
  }

  /** What the graph has in a loop. */
  ghost predicate LoopAt(G: seq<Event>, cond: Option<Expr>, pat: Option<Pat>, lbl: Label, b: Block, c: Ctx, p: Point,
          n: nat, r: Ren) {
    BodyAt(G, LowerHead(cond, pat, c, p, n, r), lbl, b, c, n) && (cond.Some? ==> HeadAt(G, cond.value, pat, c, n, r))
  }

  /** From the header on: one or more rounds. */
  lemma {:induction false} CompleteHeader(cond: Option<Expr>, pat: Option<Pat>, lbl: Label, b: Block, top: bool,
          c: Ctx, p: Point, n: nat, r: Ren,
                                          G: seq<Event>, es: seq<Event>)
    returns (x: Found)
    requires Ok(c, p, n) && PlainCond(cond, top, c.cl) && PlainB(b, top, c.cl)
    requires LoopAt(G, cond, pat, lbl, b, c, p, n, r) && PathTo(G, Point(n, 0), es, ExitOf(c))
    ensures RunLoop(c.cl, cond, pat, lbl, b, x.t) &&
        Ends(G, c, Point(LowerHead(cond, pat, c, p, n, r).next - 1, 0), es, x, top)
    decreases |es|, CondSize(cond) + 2 + SizeB(b) + FramesSize(c.frames), 2
  {
    hide Ok, PathTo, Ends, ExactF, PlainE, PlainB, LowerE, RunRound, Only, BodyAt, LowerDefs;
    match cond
    case None => x := CompleteRound(cond, pat, lbl, b, top, c, p, n, r, G, es);
    case Some(e) =>
      var f := LowerE(e, c, Point(n, 0), n + 1, r);
      var m := Point(LowerHead(cond, pat, c, p, n, r).next - 1, 0);
      HeadAsCat(e, pat, c, p, n, r);
      OkBlock(c, f.out, f.next);
      x := CompleteE(e, top, c, Point(n, 0), n + 1, r, G, es);
      EndsLess(G, c, f.out, es, x, top);
      if Out(x.t) != Normal {
        EarlyEnds(G, c, f.out, m, es, x, top);
      } else {
        PeelJump(G, f.out, x.rest, ExitOf(c), {Jump(f.out, f.next, false), Jump(f.out, f.next + 1, false)});
        var y: Found;
        if x.rest[0] == Jump(f.out, f.next + 1, false) {
          EmptyEnds(G, c, m, x.rest[1..], top);
          y := Found(Emit([]), RNil, x.rest[1..]);
        } else {
          y := CompleteEnter(e, pat, lbl, b, top, c, p, n, r, G, x.rest[1..], f);
        }
        JumpEnds(G, c, m, x.rest, y, top);
        x := SeqEnds(G, c, f.out, m, es, x, y, top);
      }
  }

  /** The loop variables, then a round. */
  lemma {:induction false} CompleteEnter(e: Expr, pat: Option<Pat>, lbl: Label, b: Block, top: bool, c: Ctx, p: Point,
          n: nat, r: Ren,
                                         G: seq<Event>, es: seq<Event>, f: Frag)
    returns (x: Found)
    requires f == LowerE(e, c, Point(n, 0), n + 1, r)
    requires Ok(c, p, n) && PlainE(e, top, c.cl) && PlainB(b, top, c.cl)
    requires LoopAt(G, Some(e), pat, lbl, b, c, p, n, r) && PathTo(G, Point(f.next, 0), es, ExitOf(c))
    ensures x.t.Seq? && x.t.first == Emit(LoopDefines(pat)) && RunRound(c.cl, Some(e), pat, lbl, b, x.t.second)
    ensures Ends(G, c, Point(LowerHead(Some(e), pat, c, p, n, r).next - 1, 0), es, x, top)
    decreases |es|, CondSize(Some(e)) + 2 + SizeB(b) + FramesSize(c.frames), 2
  {
    hide Ok, PathTo, Ends, ExactF, PlainE, PlainB, LowerE, RunRound, Only, BodyAt;
    var h := LowerHead(Some(e), pat, c, p, n, r);
    HeadAsCat(e, pat, c, p, n, r);
    OkBlock(c, f.out, f.next);
    var v := HeadDefsEnds(pat, f, c, G, es, top);
    EndsLess(G, c, h.out, es, v, top);
    var y := CompleteRound(Some(e), pat, lbl, b, top, c, p, n, r, G, v.rest);
    x := SeqEnds(G, c, h.out, Point(h.next - 1, 0), es, v, y, top);
  }

  lemma HeadDefsEnds(pat: Option<Pat>, f: Frag, c: Ctx, G: seq<Event>, es: seq<Event>, top: bool) returns (x: Found)
    requires c.exit < f.next && ExactF(G, HeadDefs(pat, f), Point(f.next, 0), f.next + 2) &&
        PathTo(G, Point(f.next, 0), es, ExitOf(c))
    ensures x.t == Emit(LoopDefines(pat)) && Ends(G, c, HeadDefs(pat, f).out, es, x, top)
  {
    hide PathTo, Ends, ExactF;
    match pat
    case None =>
      EmptyEnds(G, c, Point(f.next, 0), es, top);
      x := Found(Emit([]), RNil, es);
    case Some(pt) => x := DefsEnds(pt.names, pt.span, c, Point(f.next, 0), f.next + 2, PushFrame(f.ren, InFor), G, es,
        top);
  }

  /** The body, and further rounds if it leads back to the header. */
  lemma {:induction false} CompleteRound(cond: Option<Expr>, pat: Option<Pat>, lbl: Label, b: Block, top: bool, c: Ctx,
          p: Point, n: nat, r: Ren,
                                         G: seq<Event>, es: seq<Event>)
    returns (x: Found)
    requires Ok(c, p, n) && PlainCond(cond, top, c.cl) && PlainB(b, top, c.cl)
    requires LoopAt(G, cond, pat, lbl, b, c, p, n, r) && PathTo(G, LowerHead(cond, pat, c, p, n, r).out, es, ExitOf(c))
    ensures RunRound(c.cl, cond, pat, lbl, b, x.t) &&
        Ends(G, c, Point(LowerHead(cond, pat, c, p, n, r).next - 1, 0), es, x, top)
    decreases |es|, CondSize(cond) + 2 + SizeB(b) + FramesSize(c.frames), 1
  {
    hide Ok, PathTo, Ends, ExactF, PlainE, PlainB, LowerE, LowerBlock, LowerHead, Only, HeadAt, RunLoop;
    var h := LowerHead(cond, pat, c, p, n, r);
    var m := Point(h.next - 1, 0);
    var c1 := InLoop(c, lbl, h.next - 1, n);
    var g := LowerBlock(b, c1, h.out, h.next, h.ren);
    x := CompleteBlock(b, top, c1, h.out, h.next, h.ren, G, es);
    EndsLess(G, c1, g.out, es, x, top);
    if Out(x.t) != Normal && !Catches(lbl, Out(x.t)) {
      OuterTarget(c, lbl, h.next - 1, n, Out(x.t));
      OuterEnds(G, c, c1, g.out, m, es, x, top);
    } else if Out(x.t) != Normal && Out(x.t).Brk? {
      x := BreakEnds(G, c, lbl, h.next - 1, n, g.out, es, x, top);
    } else {
      var q: seq<Event>;
      if Out(x.t) == Normal {
        PeelJump(G, g.out, x.rest, ExitOf(c), {Jump(g.out, n, true)});
        q := x.rest[1..];
      } else {
        ContinueEnds(G, c, lbl, h.next - 1, n, g.out, es, x, top);
        q := x.rest;
      }
      RoundTrace(G, c1, g.out, es, x, q, top);
      var y := CompleteHeader(cond, pat, lbl, b, top, c, p, n, r, G, q);
      x := RoundEnds(G, c, m, es, x.t, q, y, top);
    }
  }

  lemma OuterEnds(G: seq<Event>, c: Ctx, c1: Ctx, mid: Point, out: Point, es: seq<Event>, x: Found, top: bool)
    requires Ends(G, c1, mid, es, x, top) && Out(x.t) != Normal && TargetOf(c1, Out(x.t)) == TargetOf(c, Out(x.t))
    requires c1.exit == c.exit && c1.cl == c.cl
    ensures Ends(G, c, out, es, x, top)
  {
  }

  lemma BreakEnds(G: seq<Event>, c: Ctx, lbl: Label, merge: nat, header: nat, mid: Point, es: seq<Event>, x: Found,
          top: bool)
    returns (w: Found)
    requires Ends(G, InLoop(c, lbl, merge, header), mid, es, x, top) && Out(x.t).Brk? && Catches(lbl, Out(x.t))
    ensures w.t == Caught(x.t) && Ends(G, c, Point(merge, 0), es, w, top)
  {
    InnerTarget(c, lbl, merge, header, Out(x.t));
    w := Found(Caught(x.t), RNil, x.rest);
    assert TraceAll(RNil) + Labels1(x.rest) == Labels1(x.rest);
  }

  lemma ContinueEnds(G: seq<Event>, c: Ctx, lbl: Label, merge: nat, header: nat, mid: Point, es: seq<Event>, x: Found,
          top: bool)
    requires Ends(G, InLoop(c, lbl, merge, header), mid, es, x, top) && Out(x.t).Cont? && Catches(lbl, Out(x.t))
    ensures PathTo(G, Point(header, 0), x.rest, ExitOf(c)) && x.cs == RNil
  {
    InnerTarget(c, lbl, merge, header, Out(x.t));
  }

  lemma RoundTrace(G: seq<Event>, c: Ctx, mid: Point, es: seq<Event>, x: Found, q: seq<Event>, top: bool)
    requires Ends(G, c, mid, es, x, top)
    requires if Out(x.t) == Normal then
        x.rest != [] && q == x.rest[1..] && Labels1(x.rest) == Labels1(q) else x.cs == RNil && q == x.rest
    ensures |q| < |es| && Labels1(es) == Trace(x.t) + Labels1(q)
  {
    hide Trace;
    assert TraceAll(RNil) + Labels1(x.rest) == Labels1(x.rest);
  }

  lemma RoundEnds(G: seq<Event>, c: Ctx, out: Point, es: seq<Event>, t: Run, q: seq<Event>, y: Found, top: bool)
    returns (w: Found)
    requires Ends(G, c, out, q, y, top) && |q| < |es| && Labels1(es) == Trace(t) + Labels1(q)
    ensures w.t == Seq(Caught(t), y.t) && Ends(G, c, out, es, w, top)
  {
    w := Found(Seq(Caught(t), y.t), y.cs, y.rest);
    Assoc(Trace(t), Trace(y.t), After(Out(y.t), y.cs, Labels1(y.rest)));
  }
}
