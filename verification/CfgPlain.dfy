/** The bodies for which the graph is exact: no closure, sink argument, guard or
    short-circuit operator, and cleanup bodies that neither return nor use `?`. Their
    fragments end at an open position. */
module CfgPlain {
  import opened CfgSyntax
  import opened CfgLowering
  import opened CfgGood
  import opened CfgInvariant
  import opened CfgSound
  import opened CfgExact

  /** `top` allows `return` and `?`. */
  predicate PlainE(e: Expr, top: bool, cl: Classification) {
    match e
    case Leaf => true
    case Use(_, _) => true
    case Ops(strict, es) => strict && PlainEs(es, top, cl)
    case BlockE(b) => PlainB(b, top, cl)
    case If(_, cond, t, el) =>
      PlainE(cond, top, cl) && PlainB(t, top, cl) && (match el case None => true case Some(x) => PlainE(x, top, cl))
    case Match(s, arms) => PlainE(s, top, cl) && PlainArms(arms, top, cl)
    case While(_, cond, b) => PlainE(cond, top, cl) && PlainB(b, top, cl)
    case For(_, _, it, b) => PlainE(it, top, cl) && PlainB(b, top, cl)
    case Loop(_, b) => PlainB(b, top, cl)
    case Break(_, v) => PlainE(v, top, cl)
    case Continue(_) => true
    case Return(v) => top && PlainE(v, top, cl)
    case Question(x) => top && PlainE(x, top, cl)
    case Closure(_) => false
    case MethodCall(o, args) => !HasSink(args, cl) && PlainE(o, top, cl) && PlainArgs(args, top, cl)
  }

  predicate PlainEs(es: Exprs, top: bool, cl: Classification) {
    match es
    case ENil => true
    case ECons(h, t) => PlainE(h, top, cl) && PlainEs(t, top, cl)
  }

  predicate PlainArgs(args: Args, top: bool, cl: Classification) {
    match args
    case ANil => true
    case ACons(_, v, t) => PlainE(v, top, cl) && PlainArgs(t, top, cl)
  }

  predicate PlainArms(arms: Arms, top: bool, cl: Classification) {
    match arms
    case NoArm => true
    case Arm(_, g, b, others) => g == Leaf && PlainE(b, top, cl) && PlainArms(others, top, cl)
  }

  predicate PlainB(b: Block, top: bool, cl: Classification) {
    match b
    case Done(e) => PlainE(e, top, cl)
    case Then(s, rest) => PlainS(s, top, cl) && PlainB(rest, top, cl)
  }

  predicate PlainS(s: Stmt, top: bool, cl: Classification) {
    match s
    case Let(_, v) => PlainE(v, top, cl)
    case LetUninit(_) => true
    case LetElse(_, v, diverge) => PlainE(v, top, cl) && PlainB(diverge, top, cl)
    case Defer(b) => PlainB(b, false, cl)
    case ErrDefer(b) => PlainB(b, false, cl)
    case Assign(t, v) => PlainE(t, top, cl) && PlainE(v, top, cl)
    case ExprStmt(e) => PlainE(e, top, cl)
  }

  predicate PlainBodies(bs: seq<Block>, cl: Classification) {
    forall i :: 0 <= i < |bs| ==> PlainB(bs[i], false, cl)
  }

  predicate PlainItems(items: seq<Item>, cl: Classification) {
    forall i :: 0 <= i < |items| ==> PlainB(items[i].body, false, cl)
  }

  predicate PlainFrames(c: Ctx) {
    forall i :: 0 <= i < |c.frames| ==> PlainItems(c.frames[i], c.cl)
  }

  lemma {:induction false} FitE(e: Expr, top: bool, cl: Classification)
    requires PlainE(e, top, cl)
    ensures FitsE(e, true, false, cl)
  {
    match e
    case Ops(_, es) => FitEs(es, top, cl);
    case BlockE(b) => FitB(b, top, cl);
    case If(_, cond, t, el) =>
      FitE(cond, top, cl);
      FitB(t, top, cl);
      if el.Some? { FitE(el.value, top, cl); }
    case Match(s, arms) => FitE(s, top, cl); FitArms(arms, top, cl);
    case While(_, cond, b) => FitE(cond, top, cl); FitB(b, top, cl);
    case For(_, _, it, b) => FitE(it, top, cl); FitB(b, top, cl);
    case Loop(_, b) => FitB(b, top, cl);
    case Break(_, v) => FitE(v, top, cl);
    case Return(v) => FitE(v, top, cl);
    case Question(x) => FitE(x, top, cl);
    case MethodCall(o, args) => FitE(o, top, cl); FitArgs(args, top, cl);
    case Leaf =>
    case Use(_, _) =>
    case Continue(_) =>
    case Closure(_) =>
  }

  lemma {:induction false} FitEs(es: Exprs, top: bool, cl: Classification)
    requires PlainEs(es, top, cl)
    ensures FitsEs(es, true, false, cl)
  {
    if es.ECons? { FitE(es.head, top, cl); FitEs(es.tail, top, cl); }
  }

  lemma {:induction false} FitArgs(args: Args, top: bool, cl: Classification)
    requires PlainArgs(args, top, cl)
    ensures FitsArgs(args, true, false, cl)
  {
    if args.ACons? { FitE(args.value, top, cl); FitArgs(args.tail, top, cl); }
  }

  lemma {:induction false} FitArms(arms: Arms, top: bool, cl: Classification)
    requires PlainArms(arms, top, cl)
    ensures FitsArms(arms, true, false, cl)
  {
    if arms.Arm? { FitE(arms.body, top, cl); FitArms(arms.others, top, cl); }
  }

  lemma {:induction false} FitB(b: Block, top: bool, cl: Classification)
    requires PlainB(b, top, cl)
    ensures FitsB(b, true, false, cl)
  {
    match b
    case Done(e) => FitE(e, top, cl);
    case Then(s, rest) => FitS(s, top, cl); FitB(rest, top, cl);
  }

  lemma {:induction false} FitS(s: Stmt, top: bool, cl: Classification)
    requires PlainS(s, top, cl)
    ensures FitsS(s, true, false, cl)
  {
    match s
    case Let(_, v) => FitE(v, top, cl);
    case LetUninit(_) =>
    case LetElse(_, v, diverge) => FitE(v, top, cl); FitB(diverge, top, cl);
    case Defer(b) => FitB(b, false, cl);
    case ErrDefer(b) => FitB(b, false, cl);
    case Assign(t, v) => FitE(t, top, cl); FitE(v, top, cl);
    case ExprStmt(e) => FitE(e, top, cl);
  }

  function M(c: Ctx): Mode {
    Mode(c.exit, true, false, false)
  }

  /** What the builder's callers guarantee, for plain bodies. */
  ghost predicate Ok(c: Ctx, p: Point, n: nat) {
    Wf(c, p, n) && Scoped(c) && PlainFrames(c)
  }

  lemma OkFits(c: Ctx)
    requires PlainFrames(c)
    ensures Fits(c, M(c))
  {
    forall i | 0 <= i < |c.frames|
      ensures FitsItems(c.frames[i], true, false, c.cl)
    {
      forall j | 0 <= j < |c.frames[i]|
        ensures FitsB(c.frames[i][j].body, true, false, c.cl)
      {
        assert PlainItems(c.frames[i], c.cl);
        FitB(c.frames[i][j].body, false, c.cl);
      }
    }
  }

  lemma OkNext(c: Ctx, p: Point, n: nat, q: Point, k: nat)
    requires Ok(c, p, n) && k >= n && OutOk(q, p, n, k)
    ensures Ok(c, q, k)
  {
  }

  lemma LeanE(e: Expr, top: bool, c: Ctx, p: Point, n: nat, r: Ren)
    requires Ok(c, p, n) && PlainE(e, top, c.cl)
    ensures Lean(LowerE(e, c, p, n, r), p, n)
    ensures Ok(c, LowerE(e, c, p, n, r).out, LowerE(e, c, p, n, r).next)
  {
    OkFits(c);
    FitE(e, top, c.cl);
    GoodE(e, c, p, n, r, M(c));
    GoodLean(LowerE(e, c, p, n, r), Exits(c, LeavesE(e, Labels(c.loops))), p, n, M(c));
  }

  lemma LeanEs(es: Exprs, top: bool, c: Ctx, p: Point, n: nat, r: Ren)
    requires Ok(c, p, n) && PlainEs(es, top, c.cl)
    ensures Lean(LowerEs(es, c, p, n, r), p, n)
  {
    OkFits(c);
    FitEs(es, top, c.cl);
    GoodEs(es, c, p, n, r, M(c));
    GoodLean(LowerEs(es, c, p, n, r), Exits(c, LeavesEs(es, Labels(c.loops))), p, n, M(c));
  }

  lemma LeanBlock(b: Block, top: bool, c: Ctx, p: Point, n: nat, r: Ren)
    requires Ok(c, p, n) && PlainB(b, top, c.cl)
    ensures Lean(LowerBlock(b, c, p, n, r), p, n)
    ensures Ok(c, LowerBlock(b, c, p, n, r).out, LowerBlock(b, c, p, n, r).next)
  {
    OkFits(c);
    FitB(b, top, c.cl);
    GoodBlock(b, c, p, n, r, M(c));
    GoodLean(LowerBlock(b, c, p, n, r), Exits(c, LeavesB(b, Labels(c.loops))), p, n, M(c));
  }

  lemma LeanDefs(names: seq<string>, span: nat, p: Point, n: nat, r: Ren)
    requires p.block < n
    ensures Lean(LowerDefs(names, span, p, n, r), p, n)
  {
    DefsPlace(names, span, p, n, r);
  }

  lemma LeanCat(f: Frag, g: Frag, p: Point, n: nat)
    requires Lean(f, p, n) && Lean(g, f.out, f.next)
    ensures Lean(Cat(f, g), p, n)
  {
  }

  lemma LeanThen(pat: Pat, t: Block, top: bool, c: Ctx, n: nat, r: Ren)
    requires Ok(c, Point(n, 0), n + 1) && PlainB(t, top, c.cl)
    ensures Lean(LowerThen(pat, t, c, n, r), Point(n, 0), n + 1)
    ensures Ok(c, LowerThen(pat, t, c, n, r).out, LowerThen(pat, t, c, n, r).next)
  {
    hide Lean;
    var d := LowerDefs(pat.names, pat.span, Point(n, 0), n + 1, r);
    LeanDefs(pat.names, pat.span, Point(n, 0), n + 1, r);
    OkNext(c, Point(n, 0), n + 1, d.out, n + 1);
    LeanBlock(t, top, c, d.out, n + 1, d.ren);
    LeanCat(d, LowerBlock(t, c, d.out, n + 1, d.ren), Point(n, 0), n + 1);
  }

  /** An arm without a guard. */
  lemma ArmAsCat(pat: Pat, body: Expr, c: Ctx, n: nat, r: Ren)
    ensures var d := LowerDefs(pat.names, pat.span, Point(n, 0), n + 1, PushFrame(r, InArm));
      LowerArm(pat, Leaf, body, c, n, r) == Cat(d, LowerE(body, c, d.out, n + 1, d.ren))
  {
    var d := LowerDefs(pat.names, pat.span, Point(n, 0), n + 1, PushFrame(r, InArm));
    var g := LowerE(body, c, d.out, n + 1, d.ren);
    assert LowerE(Leaf, c, d.out, n + 1, d.ren) == Frag([], d.out, n + 1, d.ren);
    assert [] + g.log == g.log;
  }

  lemma OkBlock(c: Ctx, p: Point, n: nat)
    requires Ok(c, p, n)
    ensures p.block < n && c.exit < n && p.block != c.exit
  {
  }

  lemma LeanArm(pat: Pat, body: Expr, top: bool, c: Ctx, n: nat, r: Ren)
    requires Ok(c, Point(n, 0), n + 1) && PlainE(body, top, c.cl)
    ensures Lean(LowerArm(pat, Leaf, body, c, n, r), Point(n, 0), n + 1)
    ensures var d := LowerDefs(pat.names, pat.span, Point(n, 0), n + 1, PushFrame(r, InArm));
      LowerArm(pat, Leaf, body, c, n, r) == Cat(d, LowerE(body, c, d.out, n + 1, d.ren)) && Ok(c, d.out, n + 1) &&
          Lean(d, Point(n, 0), n + 1)
  {
    hide Lean, Ok, LowerE, PlainE;
    ArmAsCat(pat, body, c, n, r);
    var d := LowerDefs(pat.names, pat.span, Point(n, 0), n + 1, PushFrame(r, InArm));
    OkBlock(c, Point(n, 0), n + 1);
    LeanDefs(pat.names, pat.span, Point(n, 0), n + 1, PushFrame(r, InArm));
    OkNext(c, Point(n, 0), n + 1, d.out, n + 1);
    var g := LowerE(body, c, d.out, n + 1, d.ren);
    LeanE(body, top, c, d.out, n + 1, d.ren);
    LeanCat(d, g, Point(n, 0), n + 1);
  }

  /** What the arms of a match write at the end `q` of the scrutinee and elsewhere. */
  ghost predicate ArmsAt(g: Frag, q: Point, n: nat) {
    g.next >= n && ArmsFrom(g.log, q, n, g.next) &&
        (forall ev :: ev in g.log && ev.src.block == q.block ==> ev.src == q)
  }

  lemma ArmsAtCons(f: Frag, g: Frag, q: Point, merge: nat, n: nat)
    requires q.block < n && Lean(f, Point(n, 0), n + 1) && ArmsAt(g, q, f.next)
    ensures ArmsAt(Cat(Branch(q, merge, n, f), g), q, n)
  {
  }

  lemma {:induction false} LeanArms(arms: Arms, top: bool, c: Ctx, q: Point, merge: nat, n: nat, r: Ren)
    requires Ok(c, q, n) && PlainArms(arms, top, c.cl) && merge < n && merge != q.block
    ensures ArmsAt(LowerArms(arms, c, q, merge, n, r), q, n)
    ensures arms.Arm? ==> LowerArms(arms, c, q, merge, n, r).next > n
    decreases SizeArms(arms)
  {
    hide Lean, PlainFrames, LowerE, LowerArm, PlainE;
    if arms.Arm? {
      var f := LowerArm(arms.pat, arms.guard, arms.body, c, n, r);
      OkBranch(c, q, n);
      LeanArm(arms.pat, arms.body, top, c, n, r);
      OkNext(c, q, n, q, f.next);
      LeanArms(arms.others, top, c, q, merge, f.next, PopFrame(f.ren));
      ArmsAtCons(f, LowerArms(arms.others, c, q, merge, f.next, PopFrame(f.ren)), q, merge, n);
    }
  }

  lemma OkBranch(c: Ctx, q: Point, n: nat)
    requires Ok(c, q, n)
    ensures Ok(c, Point(n, 0), n + 1)
  {
  }

  /** Where a chain of cleanup bodies starts and ends. */
  ghost predicate ChainAt(g: Frag, p: Point, n: nat, empty: bool) {
    Lean(g, p, n) && ChainStart(g, p, n) && (if empty then g.out == p else g.out.block >= n)
  }

  lemma ChainAtCons(f: Frag, g: Frag, p: Point, n: nat, empty: bool)
    requires p.block < n && Lean(f, Point(n, 0), n + 1) && ChainAt(g, f.out, f.next, empty)
    ensures ChainAt(Cat(Enter(p, n, f), g), p, n, false)
  {
  }

  lemma ChainAtNil(p: Point, n: nat, r: Ren)
    requires p.block < n
    ensures ChainAt(Frag([], p, n, r), p, n, true)
  {
  }

  lemma CleanupOk(c: Ctx, n: nat)
    requires c.exit < n
    ensures Ok(CleanupCtx(c), Point(n, 0), n + 1)
  {
  }

  lemma {:induction false} LeanChain(bs: seq<Block>, c: Ctx, p: Point, n: nat, r: Ren)
    requires p.block < n && c.exit < n && p.block != c.exit && PlainBodies(bs, c.cl)
    ensures ChainAt(LowerChain(bs, c, p, n, r), p, n, bs == [])
    decreases BodiesSize(bs)
  {
    hide Lean, ChainStart, LowerBlock, PlainB, ChainAt;
    if bs == [] {
      ChainAtNil(p, n, r);
    } else {
      var c1 := CleanupCtx(c);
      var f := LowerBlock(bs[0], c1, Point(n, 0), n + 1, PushFrame(r, Cu));
      CleanupOk(c, n);
      LeanBlock(bs[0], false, c1, Point(n, 0), n + 1, PushFrame(r, Cu));
      LeanChain(bs[1..], c, f.out, f.next, PopFrame(f.ren));
      ChainAtCons(f, LowerChain(bs[1..], c, f.out, f.next, PopFrame(f.ren)), p, n, bs[1..] == []);
    }
  }

  lemma {:induction false} PickPlain(items: seq<Item>, err: bool, cl: Classification)
    requires PlainItems(items, cl)
    ensures PlainBodies(Pick(items, err), cl)
  {
    if items != [] {
      PickPlain(items[..|items| - 1], err, cl);
    }
  }

  lemma FrameBodiesPlain(items: seq<Item>, err: bool, cl: Classification)
    requires PlainItems(items, cl)
    ensures PlainBodies(FrameBodies(items, err), cl)
  {
    PickPlain(items, true, cl);
    PickPlain(items, false, cl);
  }

  lemma {:induction false} BodiesPlain(frames: seq<seq<Item>>, depth: nat, err: bool, cl: Classification)
    requires forall i :: 0 <= i < |frames| ==> PlainItems(frames[i], cl)
    ensures PlainBodies(Bodies(frames, depth, err), cl)
  {
    if |frames| > depth {
      BodiesPlain(frames[..|frames| - 1], depth, err, cl);
      FrameBodiesPlain(frames[|frames| - 1], err, cl);
    }
  }

  lemma TargetPlain(c: Ctx, o: Outcome)
    requires o != Normal && PlainFrames(c)
    ensures TargetOf(c, o).Some? ==> PlainBodies(TargetOf(c, o).value.bodies, c.cl)
  {
    match o
    case Ret => BodiesPlain(c.frames, 0, true, c.cl);
    case Brk(l) =>
      if Resolve(c.loops, l).Some? {
        BodiesPlain(c.frames, c.loops[Resolve(c.loops, l).value].depth, false, c.cl);
      }
    case Cont(l) =>
      if Resolve(c.loops, l).Some? {
        BodiesPlain(c.frames, c.loops[Resolve(c.loops, l).value].depth, false, c.cl);
      }
  }

  lemma OkScope(c: Ctx, items: seq<Item>, p: Point, n: nat)
    requires Ok(c, p, n) && PlainItems(items, c.cl)
    ensures Ok(InScope(c, items), p, n)
  {
    ScopeScoped(c, items);
    var c1 := InScope(c, items);
    forall i | 0 <= i < |c1.frames|
      ensures PlainItems(c1.frames[i], c.cl)
    {
      if i < |c.frames| {
        assert c1.frames[..|c.frames|][i] == c1.frames[i];
      }
    }
  }

  lemma PushPlain(items: seq<Item>, it: Item, cl: Classification)
    requires PlainItems(items, cl) && PlainB(it.body, false, cl)
    ensures PlainItems(Push(items, it), cl)
  {
    var s := Push(items, it);
    forall i | 0 <= i < |s|
      ensures PlainB(s[i].body, false, cl)
    {
      if i < |items| {
        assert s[..|items|][i] == s[i];
      }
    }
  }

  lemma PlainStmtExpr(s: Stmt, top: bool, cl: Classification)
    requires IsPlain(s) && PlainS(s, top, cl)
    ensures PlainE(StmtExpr(s), top, cl)
  {
    match s
    case Assign(t, v) => assert PlainEs(ECons(t, ENil), top, cl);
    case _ =>
  }

  lemma LeanIntro(s: Stmt, p: Point, n: nat, r: Ren)
    requires IsPlain(s) && p.block < n
    ensures Lean(LowerIntro(s, p, n, r), p, n)
  {
    if s.Let? {
      LeanDefs(s.pat.names, s.pat.span, p, n, ShadowIfSeen(s.pat.names, r));
    }
  }

  lemma LeanPlain(s: Stmt, top: bool, c: Ctx, p: Point, n: nat, r: Ren)
    requires IsPlain(s) && Ok(c, p, n) && PlainS(s, top, c.cl)
    ensures Lean(LowerPlain(s, c, p, n, r), p, n)
    ensures var f := LowerE(StmtExpr(s), c, p, n, r);
        Lean(f, p, n) && Ok(c, f.out, f.next) && Lean(LowerIntro(s, f.out, f.next, f.ren), f.out, f.next)
  {
    hide Lean;
    PlainStmtExpr(s, top, c.cl);
    var f := LowerE(StmtExpr(s), c, p, n, r);
    LeanE(StmtExpr(s), top, c, p, n, r);
    LeanIntro(s, f.out, f.next, f.ren);
    LeanCat(f, LowerIntro(s, f.out, f.next, f.ren), p, n);
  }

  lemma LeanRest(b: Block, items: seq<Item>, top: bool, c: Ctx, p: Point, n: nat, r: Ren)
    requires Ok(c, p, n) && PlainB(b, top, c.cl) && PlainItems(items, c.cl)
    ensures Lean(LowerRest(b, items, c, p, n, r), p, n)
  {
    OkFits(c);
    FitB(b, top, c.cl);
    assert FitsItems(items, true, false, c.cl) by {
      forall j | 0 <= j < |items| ensures FitsB(items[j].body, true, false, c.cl) { FitB(items[j].body, false, c.cl); }
    }
    GoodRest(b, items, c, p, n, r, M(c));
    GoodLean(LowerRest(b, items, c, p, n, r), Exits(c, LeavesB(b, Labels(c.loops))), p, n, M(c));
  }

  lemma OkLoop(c: Ctx, lbl: Label, merge: nat, header: nat, q: Point, k: nat)
    requires PlainFrames(c) && Scoped(c) && c.exit < k && q.block < k && q.block != c.exit && merge < k && header < k &&
        merge != q.block
    requires forall i :: 0 <= i < |c.loops| ==> c.loops[i].brk < k && c.loops[i].cont < k && c.loops[i].brk != q.block
    ensures Ok(InLoop(c, lbl, merge, header), q, k)
  {
    InLoopScoped(c, lbl, merge, header);
    var c1 := InLoop(c, lbl, merge, header);
    forall i | 0 <= i < |c1.loops|
      ensures c1.loops[i].brk < k && c1.loops[i].cont < k && c1.loops[i].brk != q.block
    {
      if i < |c.loops| {
        assert c1.loops[..|c.loops|][i] == c1.loops[i];
      }
    }
  }
}
