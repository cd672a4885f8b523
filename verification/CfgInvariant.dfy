/** Every lowering is good: its writes stay in place, forward edges come in an
    order in which no cycle fits, loops are entered at their headers and side
    branches do not flow back. */
module CfgInvariant {
  import opened Options
  import opened CfgSyntax
  import opened CfgLowering
  import opened CfgGood

  // ── Fragments of the language ────────────────────────────────────

  /** No let-else unless `open`; no closure and no sink argument unless `side`. */
  predicate FitsE(e: Expr, open: bool, side: bool, cl: Classification) {
    (open && side) ||
    match e
    case Leaf => true
    case Use(_, _) => true
    case Ops(_, es) => FitsEs(es, open, side, cl)
    case BlockE(b) => FitsB(b, open, side, cl)
    case If(_, cond, t, el) =>
      FitsE(cond, open, side, cl) && FitsB(t, open, side, cl) &&
          (match el case None => true case Some(x) => FitsE(x, open, side, cl))
    case Match(s, arms) => FitsE(s, open, side, cl) && FitsArms(arms, open, side, cl)
    case While(_, cond, b) => FitsE(cond, open, side, cl) && FitsB(b, open, side, cl)
    case For(_, _, it, b) => FitsE(it, open, side, cl) && FitsB(b, open, side, cl)
    case Loop(_, b) => FitsB(b, open, side, cl)
    case Break(_, v) => FitsE(v, open, side, cl)
    case Continue(_) => true
    case Return(v) => FitsE(v, open, side, cl)
    case Question(x) => FitsE(x, open, side, cl)
    case Closure(x) => side && FitsE(x, open, side, cl)
    case MethodCall(o, args) =>
      (side || !HasSink(args, cl)) && FitsE(o, open, side, cl) && FitsArgs(args, open, side, cl)
  }

  predicate FitsEs(es: Exprs, open: bool, side: bool, cl: Classification) {
    (open && side) || match es
    case ENil => true
    case ECons(h, t) => FitsE(h, open, side, cl) && FitsEs(t, open, side, cl)
  }

  predicate FitsArgs(args: Args, open: bool, side: bool, cl: Classification) {
    (open && side) || match args
    case ANil => true
    case ACons(_, v, t) => FitsE(v, open, side, cl) && FitsArgs(t, open, side, cl)
  }

  predicate FitsArms(arms: Arms, open: bool, side: bool, cl: Classification) {
    (open && side) || match arms
    case NoArm => true
    case Arm(_, g, b, others) =>
      FitsE(g, open, side, cl) && FitsE(b, open, side, cl) && FitsArms(others, open, side, cl)
  }

  predicate FitsB(b: Block, open: bool, side: bool, cl: Classification) {
    (open && side) || match b
    case Done(e) => FitsE(e, open, side, cl)
    case Then(s, rest) => FitsS(s, open, side, cl) && FitsB(rest, open, side, cl)
  }

  predicate FitsS(s: Stmt, open: bool, side: bool, cl: Classification) {
    (open && side) || match s
    case Let(_, v) => FitsE(v, open, side, cl)
    case LetUninit(_) => true
    case LetElse(_, v, b) => open && FitsE(v, open, side, cl) && FitsB(b, open, side, cl)
    case Defer(b) => FitsB(b, open, side, cl)
    case ErrDefer(b) => FitsB(b, open, side, cl)
    case Assign(t, v) => FitsE(t, open, side, cl) && FitsE(v, open, side, cl)
    case ExprStmt(e) => FitsE(e, open, side, cl)
  }

  predicate FitsItems(items: seq<Item>, open: bool, side: bool, cl: Classification) {
    forall i :: 0 <= i < |items| ==> FitsB(items[i].body, open, side, cl)
  }

  predicate FitsBodies(bs: seq<Block>, open: bool, side: bool, cl: Classification) {
    forall i :: 0 <= i < |bs| ==> FitsB(bs[i], open, side, cl)
  }

  predicate FitsCtx(c: Ctx, open: bool, side: bool) {
    forall i :: 0 <= i < |c.frames| ==> FitsItems(c.frames[i], open, side, c.cl)
  }

  lemma {:induction false} PickFits(items: seq<Item>, err: bool, open: bool, side: bool, cl: Classification)
    requires FitsItems(items, open, side, cl)
    ensures FitsBodies(Pick(items, err), open, side, cl)
  {
    if items != [] {
      PickFits(items[..|items| - 1], err, open, side, cl);
    }
  }

  lemma FrameBodiesFit(items: seq<Item>, err: bool, open: bool, side: bool, cl: Classification)
    requires FitsItems(items, open, side, cl)
    ensures FitsBodies(FrameBodies(items, err), open, side, cl)
  {
    PickFits(items, true, open, side, cl);
    PickFits(items, false, open, side, cl);
  }

  lemma {:induction false} BodiesFit(frames: seq<seq<Item>>, depth: nat, err: bool, open: bool, side: bool,
          cl: Classification)
    requires forall i :: 0 <= i < |frames| ==> FitsItems(frames[i], open, side, cl)
    ensures FitsBodies(Bodies(frames, depth, err), open, side, cl)
  {
    if |frames| > depth {
      BodiesFit(frames[..|frames| - 1], depth, err, open, side, cl);
      FrameBodiesFit(frames[|frames| - 1], err, open, side, cl);
    }
  }

  // ── Targets ──────────────────────────────────────────────────────

  ghost function ExitsOf(exit: nat, loops: seq<LoopFrame>, leaves: set<nat>): Targets {
    {(exit, false)} + (set i | i in leaves && i < |loops| :: (loops[i].brk, false))
                    + (set i | i in leaves && i < |loops| :: (loops[i].cont, true))
  }

  ghost function Exits(c: Ctx, leaves: set<nat>): Targets {
    ExitsOf(c.exit, c.loops, leaves)
  }

  /** What the builder's callers guarantee: known blocks, and a current block
      that is neither the exit nor waiting to be a loop's continuation. */
  ghost predicate Wf(c: Ctx, p: Point, n: nat) {
    && p.block < n && c.exit < n && p.block != c.exit
    && forall i :: 0 <= i < |c.loops| ==> c.loops[i].brk < n && c.loops[i].cont < n && c.loops[i].brk != p.block
  }

  lemma OldExits(c: Ctx, leaves: set<nat>, p: Point, n: nat)
    requires Wf(c, p, n)
    ensures Old(Exits(c, leaves), p, n)
  {
  }

  lemma Widen(f: Frag, c: Ctx, a: set<nat>, b: set<nat>, p: Point, n: nat, m: Mode)
    requires a <= b && Good(f, Exits(c, a), p, n, m)
    ensures Good(f, Exits(c, b), p, n, m)
  {
    hide Body;
    GoodMono(f, Exits(c, a), Exits(c, b), p, n, m);
  }

  lemma CatUnder(f: Frag, g: Frag, c: Ctx, a: set<nat>, b: set<nat>, leaves: set<nat>, p: Point, n: nat, m: Mode)
    requires Wf(c, p, n) && a <= leaves && b <= leaves
    requires Good(f, Exits(c, a), p, n, m) && Good(g, Exits(c, b), f.out, f.next, m)
    ensures Good(Cat(f, g), Exits(c, leaves), p, n, m)
  {
    hide Body;
    OldExits(c, leaves, p, n);
    Widen(f, c, a, leaves, p, n, m);
    Widen(g, c, b, leaves, f.out, f.next, m);
    GoodCat(f, g, Exits(c, leaves), p, n, m);
  }

  ghost predicate Fits(c: Ctx, m: Mode) {
    FitsCtx(c, m.open, m.side) && m.exit == c.exit && (m.nest ==> c.inSink)
  }

  // ── The induction ────────────────────────────────────────────────

  lemma {:induction false} GoodE(e: Expr, c: Ctx, p: Point, n: nat, r: Ren, m: Mode)
    requires Wf(c, p, n) && Fits(c, m) && FitsE(e, m.open, m.side, c.cl)
    ensures Good(LowerE(e, c, p, n, r), Exits(c, LeavesE(e, Labels(c.loops))), p, n, m)
    decreases SizeE(e) + FramesSize(c.frames), 2
  {
    hide Body, HeadOk, Branches, ExitsOf, Old, Fits;
    match e
    case Leaf => EmptyGood(p, n, r, Exits(c, {}), m);
    case Use(name, span) => UseGood(Rename(r, LeafUse(c.cl, name, span)), p, n, r, Exits(c, {}), m);
    case Ops(_, es) => GoodEs(es, c, p, n, r, m);
    case BlockE(b) => GoodBlock(b, c, p, n, r, m);
    case If(_, _, _, _) => GoodIf(e, c, p, n, r, m);
    case Match(_, _) => GoodMatch(e, c, p, n, r, m);
    case While(l, cond, b) => GoodLoop(Some(cond), None, l, b, c, p, n, r, m);
    case For(l, pat, it, b) =>
      var f := LowerE(it, c, p, n, r);
      GoodE(it, c, p, n, r, m);
      GoodLoop(Some(Leaf), Some(pat), l, b, c, f.out, f.next, f.ren, m);
      CatUnder(f, LowerLoop(Some(Leaf), Some(pat), l, b, c, f.out, f.next, f.ren), c,
               LeavesE(it, Labels(c.loops)), LoopLeaves(Some(Leaf), l, b, c), LeavesE(e, Labels(c.loops)), p, n, m);
    case Loop(l, b) =>
      GoodLoop(None, None, l, b, c, p, n, r, m);
      assert LoopLeaves(None, l, b, c) == LeavesE(e, Labels(c.loops));
    case Break(l, v) =>
      GoodE(v, c, p, n, r, m);
      GoodExit(LowerE(v, c, p, n, r), Brk(l), c, LeavesE(v, Labels(c.loops)), p, n, m);
    case Continue(l) =>
      EmptyGood(p, n, r, Exits(c, {}), m);
      GoodExit(Frag([], p, n, r), Cont(l), c, {}, p, n, m);
      assert {} + ResolveLabel(Labels(c.loops), l) == LeavesE(e, Labels(c.loops));
    case Return(v) =>
      GoodE(v, c, p, n, r, m);
      GoodExit(LowerE(v, c, p, n, r), Ret, c, LeavesE(v, Labels(c.loops)), p, n, m);
    case Question(_) => GoodQuestion(e, c, p, n, r, m);
    case Closure(_) => GoodClosure(e, c, p, n, r, m);
    case MethodCall(_, _) => GoodCall(e, c, p, n, r, m);
  }

  lemma {:induction false} GoodEs(es: Exprs, c: Ctx, p: Point, n: nat, r: Ren, m: Mode)
    requires Wf(c, p, n) && Fits(c, m) && FitsEs(es, m.open, m.side, c.cl)
    ensures Good(LowerEs(es, c, p, n, r), Exits(c, LeavesEs(es, Labels(c.loops))), p, n, m)
    decreases SizeEs(es) + FramesSize(c.frames), 2
  {
    hide Body, HeadOk, Branches, ExitsOf, Old, Fits;
    var ls := Labels(c.loops);
    match es
    case ENil => EmptyGood(p, n, r, Exits(c, {}), m);
    case ECons(h, t) =>
      var f := LowerE(h, c, p, n, r);
      GoodE(h, c, p, n, r, m);
      GoodEs(t, c, f.out, f.next, f.ren, m);
      CatUnder(f, LowerEs(t, c, f.out, f.next, f.ren), c, LeavesE(h, ls), LeavesEs(t, ls), LeavesEs(es, ls), p, n, m);
  }

  lemma UseGood(u: UseSite, p: Point, n: nat, r: Ren, X: Targets, m: Mode)
    ensures Good(Frag([Step(p, Some(u))], Point(p.block, p.off + 1), n, r), X, p, n, m)
  {
    OneStep(u, p);
    StepsGood(Frag([Step(p, Some(u))], Point(p.block, p.off + 1), n, r), p, n, X, m);
  }

  lemma OneStep(u: UseSite, p: Point)
    ensures Flow([Step(p, Some(u))], Point(p.block, p.off + 1), p)
    ensures Continues([Step(p, Some(u))], p, Point(p.block, p.off + 1), p.block)
  {
    var log := [Step(p, Some(u))];
    assert log[..0] == [];
    assert Steps(log[..|log| - 1], p.block) == 0;
  }

  ghost predicate InPlace(log: seq<Event>, p: Point, out: Point) {
    && (forall ev :: ev in log ==> ev.Step? && ev.src.block == p.block && p.off <= ev.src.off < out.off)
    && Flow(log, out, p)
  }

  lemma StepThen(u: UseSite, log: seq<Event>, p: Point, q: Point, out: Point)
    requires q == Point(p.block, p.off + 1) && out.block == p.block && q.off <= out.off && InPlace(log, q, out)
    ensures InPlace([Step(p, Some(u))] + log, p, out)
  {
    OneStep(u, p);
    FlowCat([Step(p, Some(u))], log, out, p, q);
    hide Flow;
  }

  lemma NoneInPlace(p: Point)
    ensures InPlace([], p, p)
  {
  }

  lemma {:induction false} DefsPlace(names: seq<string>, span: nat, p: Point, n: nat, r: Ren)
    ensures InPlace(LowerDefs(names, span, p, n, r).log, p, Point(p.block, p.off + |names|))
    decreases |names|
  {
    hide InPlace;
    if names == [] {
      NoneInPlace(p);
    } else {
      var q := Point(p.block, p.off + 1);
      var r1 := Note(r, names[0]);
      DefsPlace(names[1..], span, q, n, r1);
      StepThen(Rename(r1, DefineUse(names[0], span)), LowerDefs(names[1..], span, q, n, r1).log, p, q,
          Point(p.block, p.off + |names|));
    }
  }

  lemma GoodDefs(names: seq<string>, span: nat, p: Point, n: nat, r: Ren, c: Ctx, m: Mode)
    ensures Good(LowerDefs(names, span, p, n, r), Exits(c, {}), p, n, m)
  {
    DefsPlace(names, span, p, n, r);
    StepsGood(LowerDefs(names, span, p, n, r), p, n, Exits(c, {}), m);
  }

  /** Condition and then-branch: still open at the condition's end and at the branch's. */
  ghost predicate Forked(k: Frag, q: Point, X: Targets, p: Point, n: nat, m: Mode) {
    && Good(k, X, p, n, m) && Leavable(k.log, q, p, n, k.next) && Leavable(k.log, k.out, p, n, k.next)
    && q.block < k.next
  }

  lemma {:induction false} GoodFront(e: Expr, c: Ctx, p: Point, n: nat, r: Ren, m: Mode, f: Frag, k: Frag)
    requires e.If? && Wf(c, p, n) && Fits(c, m) && FitsE(e, m.open, m.side, c.cl)
    requires f == LowerE(e.cond, c, p, n, r)
    requires k == Cat(f, Enter(f.out, f.next, LowerThen(e.pat, e.thenBranch, c, f.next, f.ren)))
    ensures Forked(k, f.out, Exits(c, LeavesE(e, Labels(c.loops))), p, n, m)
    decreases SizeE(e) + FramesSize(c.frames), 0
  {
    hide Body, HeadOk, Branches, ExitsOf, Old, Fits;
    var ls := Labels(c.loops);
    var leaves := LeavesE(e, ls);
    var X := Exits(c, leaves);
    OldExits(c, leaves, p, n);
    GoodE(e.cond, c, p, n, r, m);
    Widen(f, c, LeavesE(e.cond, ls), leaves, p, n, m);
    var d := LowerDefs(e.pat.names, e.pat.span, Point(f.next, 0), f.next + 1, f.ren);
    GoodDefs(e.pat.names, e.pat.span, Point(f.next, 0), f.next + 1, f.ren, c, m);
    var g := LowerBlock(e.thenBranch, c, d.out, f.next + 1, d.ren);
    GoodBlock(e.thenBranch, c, d.out, f.next + 1, d.ren, m);
    CatUnder(d, g, c, {}, LeavesB(e.thenBranch, ls), leaves, Point(f.next, 0), f.next + 1, m);
    ForkCat(f, Cat(d, g), X, p, n, m);
  }

  lemma EnterSteps(p: Point, n: nat, f: Frag, X: Targets, m: Mode)
    requires Good(f, X, Point(n, 0), n + 1, m)
    ensures forall ev :: ev in Enter(p, n, f).log && ev.Step? ==> ev.src.block >= n
  {
    hide Linked, Flow;
  }

  lemma ForkCat(f: Frag, t: Frag, X: Targets, p: Point, n: nat, m: Mode)
    requires Old(X, p, n) && Good(f, X, p, n, m) && Good(t, X, Point(f.next, 0), f.next + 1, m)
    ensures Forked(Cat(f, Enter(f.out, f.next, t)), f.out, X, p, n, m)
  {
    hide Body;
    OldNext(f, X, p, n);
    GoodEnter(f.out, f.next, t, X, m);
    var e := Enter(f.out, f.next, t);
    GoodCat(f, e, X, p, n, m);
    EnterSteps(f.out, f.next, t, X, m);
    FrontOf(f, e, X, p, n, m);
    EndOf(Cat(f, e), X, p, n, m);
  }

  lemma OldNext(f: Frag, X: Targets, p: Point, n: nat)
    requires Old(X, p, n) && f.next >= n && OutOk(f.out, p, n, f.next)
    ensures Old(X, f.out, f.next)
  {
  }

  lemma {:induction false} GoodIf(e: Expr, c: Ctx, p: Point, n: nat, r: Ren, m: Mode)
    requires e.If? && Wf(c, p, n) && Fits(c, m) && FitsE(e, m.open, m.side, c.cl)
    ensures Good(LowerE(e, c, p, n, r), Exits(c, LeavesE(e, Labels(c.loops))), p, n, m)
    decreases SizeE(e) + FramesSize(c.frames), 1
  {
    hide Body, HeadOk, Branches, ExitsOf, Old, Fits, LowerThen;
    var ls := Labels(c.loops);
    var leaves := LeavesE(e, ls);
    var X := Exits(c, leaves);
    OldExits(c, leaves, p, n);
    var f := LowerE(e.cond, c, p, n, r);
    var k := Cat(f, Enter(f.out, f.next, LowerThen(e.pat, e.thenBranch, c, f.next, f.ren)));
    GoodFront(e, c, p, n, r, m, f, k);
    if e.elseBranch.None? {
      GoodClose(k, [Jump(k.out, k.next, false), Jump(f.out, k.next, false)], X, p, n, m);
    } else {
      var x := e.elseBranch.value;
      var h := LowerE(x, c, Point(k.next + 1, 0), k.next + 2, k.ren);
      GoodE(x, c, Point(k.next + 1, 0), k.next + 2, k.ren, m);
      Widen(h, c, LeavesE(x, ls), leaves, Point(k.next + 1, 0), k.next + 2, m);
      OldExits(c, leaves, f.out, k.next + 1);
      GoodBranch(f.out, k.next, k.next + 1, h, X, m);
      GoodMerge(k, [Jump(k.out, k.next, false)], Branch(f.out, k.next, k.next + 1, h), f.out, X, p, n, m);
    }
  }

  /** The end of the first of two joined fragments can still be left. */
  lemma FrontOf(f: Frag, g: Frag, X: Targets, p: Point, n: nat, m: Mode)
    requires Old(X, p, n) && Good(f, X, p, n, m) && Good(g, X, f.out, f.next, m)
    requires forall ev :: ev in g.log && ev.Step? ==> ev.src.block != f.out.block
    ensures Leavable(Cat(f, g).log, f.out, p, n, g.next)
  {
    hide Linked, Placed;
    StepsCat(f.log, g.log, f.out.block);
    NoSteps(g.log, f.out.block);
  }

  lemma EndOf(f: Frag, X: Targets, p: Point, n: nat, m: Mode)
    requires Old(X, p, n) && Good(f, X, p, n, m)
    ensures Leavable(f.log, f.out, p, n, f.next)
  {
  }

  lemma {:induction false} GoodMatch(e: Expr, c: Ctx, p: Point, n: nat, r: Ren, m: Mode)
    requires e.Match? && Wf(c, p, n) && Fits(c, m) && FitsE(e, m.open, m.side, c.cl)
    ensures Good(LowerE(e, c, p, n, r), Exits(c, LeavesE(e, Labels(c.loops))), p, n, m)
    decreases SizeE(e) + FramesSize(c.frames), 0
  {
    hide Body, HeadOk, Branches, ExitsOf, Old, Fits, LowerArms;
    var ls := Labels(c.loops);
    var leaves := LeavesE(e, ls);
    var X := Exits(c, leaves);
    OldExits(c, leaves, p, n);
    var f := LowerE(e.scrutinee, c, p, n, r);
    GoodE(e.scrutinee, c, p, n, r, m);
    Widen(f, c, LeavesE(e.scrutinee, ls), leaves, p, n, m);
    EndOf(f, X, p, n, m);
    if e.arms.NoArm? {
      GoodClose(f, [Jump(f.out, f.next, false)], X, p, n, m);
    } else {
      GoodArms(e.arms, c, f.out, f.next, f.next + 1, f.ren, m, leaves);
      GoodMerge(f, [], LowerArms(e.arms, c, f.out, f.next, f.next + 1, f.ren), f.out, X, p, n, m);
    }
  }

  lemma {:induction false} GoodArms(arms: Arms, c: Ctx, q: Point, merge: nat, n: nat, r: Ren, m: Mode, leaves: set<nat>)
    requires Wf(c, q, n) && Fits(c, m) && FitsArms(arms, m.open, m.side, c.cl)
    requires merge < n && merge != q.block && LeavesArms(arms, Labels(c.loops)) <= leaves
    ensures Branches(LowerArms(arms, c, q, merge, n, r), Exits(c, leaves), q, merge, n, m)
    decreases SizeArms(arms) + FramesSize(c.frames), 2
  {
    hide Body, HeadOk, Branches, ExitsOf, Old, Fits;
    OldExits(c, leaves, q, n);
    if arms.Arm? {
      var f := LowerArm(arms.pat, arms.guard, arms.body, c, n, r);
      GoodArm(arms.pat, arms.guard, arms.body, c, n, r, m, leaves);
      GoodBranch(q, merge, n, f, Exits(c, leaves), m);
      GoodArms(arms.others, c, q, merge, f.next, PopFrame(f.ren), m, leaves);
      GoodBranchCat(Branch(q, merge, n, f), LowerArms(arms.others, c, q, merge, f.next, PopFrame(f.ren)),
                    Exits(c, leaves), q, merge, n, m);
    } else {
      NoBranch(q, merge, n, r, Exits(c, leaves), m);
    }
  }

  lemma NoBranch(q: Point, merge: nat, n: nat, r: Ren, X: Targets, m: Mode)
    requires merge != q.block
    ensures Branches(Frag([], Point(merge, 0), n, r), X, q, merge, n, m)
  {
  }

  lemma {:induction false} GoodArm(pat: Pat, guard: Expr, body: Expr, c: Ctx, n: nat, r: Ren, m: Mode, leaves: set<nat>)
    requires Wf(c, Point(n, 0), n + 1) && Fits(c, m) && FitsE(guard, m.open, m.side, c.cl) &&
        FitsE(body, m.open, m.side, c.cl)
    requires LeavesE(guard, Labels(c.loops)) <= leaves && LeavesE(body, Labels(c.loops)) <= leaves
    ensures Good(LowerArm(pat, guard, body, c, n, r), Exits(c, leaves), Point(n, 0), n + 1, m)
    decreases SizeE(guard) + SizeE(body) + 2 + FramesSize(c.frames), 3
  {
    hide Body, HeadOk, Branches, ExitsOf, Old, Fits, LeavesE, FitsE, LowerE;
    var ls := Labels(c.loops);
    var d := LowerDefs(pat.names, pat.span, Point(n, 0), n + 1, PushFrame(r, InArm));
    GoodDefs(pat.names, pat.span, Point(n, 0), n + 1, PushFrame(r, InArm), c, m);
    var g := LowerE(guard, c, d.out, n + 1, d.ren);
    GoodE(guard, c, d.out, n + 1, d.ren, m);
    var h := LowerE(body, c, g.out, g.next, g.ren);
    GoodE(body, c, g.out, g.next, g.ren, m);
    CatUnder(g, h, c, LeavesE(guard, ls), LeavesE(body, ls), leaves, d.out, n + 1, m);
    CatUnder(d, Cat(g, h), c, {}, leaves, leaves, Point(n, 0), n + 1, m);
  }

  ghost function CondLeaves(cond: Option<Expr>, c: Ctx): set<nat> {
    match cond case None => {} case Some(e) => LeavesE(e, Labels(c.loops))
  }

  ghost function LoopLeaves(cond: Option<Expr>, lbl: Label, b: Block, c: Ctx): set<nat> {
    CondLeaves(cond, c) + Below(LeavesB(b, Labels(c.loops) + [lbl]), |c.loops|)
  }

  lemma {:induction false} GoodHead(cond: Option<Expr>, pat: Option<Pat>, c: Ctx, p: Point, n: nat, r: Ren, m: Mode,
          leaves: set<nat>)
    requires Wf(c, p, n) && Fits(c, m) && (cond.Some? ==> FitsE(cond.value, m.open, m.side, c.cl))
    requires CondLeaves(cond, c) <= leaves
    ensures HeadOk(LowerHead(cond, pat, c, p, n, r), Exits(c, leaves), p, n, m)
    decreases CondSize(cond) + FramesSize(c.frames), 3
  {
    hide Body, HeadOk, Branches, ExitsOf, Old, Fits;
    var X := Exits(c, leaves);
    OldExits(c, leaves, p, n);
    match cond
    case None => GoodHeadLoop(p, n, r, X, m);
    case Some(e) =>
      var f := LowerE(e, c, Point(n, 0), n + 1, r);
      GoodE(e, c, Point(n, 0), n + 1, r, m);
      Widen(f, c, LeavesE(e, Labels(c.loops)), leaves, Point(n, 0), n + 1, m);
      GoodHeadWhile(p, n, f, X, m);
      if pat.Some? {
        var k := Heading(p, n, f);
        DefsPlace(pat.value.names, pat.value.span, k.out, k.next, PushFrame(k.ren, InFor));
        GoodHeadDefs(k, LowerDefs(pat.value.names, pat.value.span, k.out, k.next, PushFrame(k.ren, InFor)), X, p, n, m);
      }
  }

  lemma LoopExits(c: Ctx, lbl: Label, b: Block, merge: nat, header: nat, leaves: set<nat>)
    requires Below(LeavesB(b, Labels(c.loops) + [lbl]), |c.loops|) <= leaves
    ensures var c1 := InLoop(c, lbl, merge, header);
      Exits(c1, LeavesB(b, Labels(c1.loops))) <= Exits(c, leaves) + {(merge, false), (header, true)}
  {
    var c1 := InLoop(c, lbl, merge, header);
    assert Labels(c1.loops) == Labels(c.loops) + [lbl];
    var inner := LeavesB(b, Labels(c1.loops));
    forall i | i in inner && i < |c1.loops|
      ensures (c1.loops[i].brk, false) in Exits(c, leaves) + {(merge, false), (header, true)}
      ensures (c1.loops[i].cont, true) in Exits(c, leaves) + {(merge, false), (header, true)}
    {
      if i < |c.loops| {
        assert c1.loops[..|c.loops|][i] == c1.loops[i];
        assert i in leaves;
      }
    }
  }

  lemma {:induction false} GoodLoop(cond: Option<Expr>, pat: Option<Pat>, lbl: Label, b: Block, c: Ctx,
                                    p: Point, n: nat, r: Ren, m: Mode)
    requires Wf(c, p, n) && Fits(c, m) && FitsB(b, m.open, m.side, c.cl)
    requires cond.Some? ==> FitsE(cond.value, m.open, m.side, c.cl)
    ensures Good(LowerLoop(cond, pat, lbl, b, c, p, n, r), Exits(c, LoopLeaves(cond, lbl, b, c)), p, n, m)
    decreases CondSize(cond) + 2 + SizeB(b) + FramesSize(c.frames), 3
  {
    hide Body, HeadOk, Branches, ExitsOf, Old, Fits, LowerE, LeavesE, FitsE, LowerHead, LowerBlock;
    var leaves := LoopLeaves(cond, lbl, b, c);
    var X := Exits(c, leaves);
    OldExits(c, leaves, p, n);
    var h := LowerHead(cond, pat, c, p, n, r);
    GoodHead(cond, pat, c, p, n, r, m, leaves);
    var c1 := InLoop(c, lbl, h.next - 1, n);
    InLoopWf(c, lbl, h, X, p, n, m);
    var g := LowerBlock(b, c1, h.out, h.next, h.ren);
    GoodBlock(b, c1, h.out, h.next, h.ren, m);
    LoopExits(c, lbl, b, h.next - 1, n, leaves);
    GoodMono(g, Exits(c1, LeavesB(b, Labels(c1.loops))), X + {(h.next - 1, false), (n, true)}, h.out, h.next, m);
    GoodLoopBack(n, h, g, if cond.Some? && pat.Some? then PopFrame(g.ren) else g.ren, X, p, m);
  }

  lemma InLoopWf(c: Ctx, lbl: Label, h: Frag, X: Targets, p: Point, n: nat, m: Mode)
    requires Wf(c, p, n) && HeadOk(h, X, p, n, m)
    requires Fits(c, m)
    ensures Wf(InLoop(c, lbl, h.next - 1, n), h.out, h.next) && Fits(InLoop(c, lbl, h.next - 1, n), m)
  {
    var c1 := InLoop(c, lbl, h.next - 1, n);
    forall i | 0 <= i < |c1.loops|
      ensures c1.loops[i].brk < h.next && c1.loops[i].cont < h.next && c1.loops[i].brk != h.out.block
    {
      if i < |c.loops| {
        assert c1.loops[..|c.loops|][i] == c1.loops[i];
      }
    }
  }

  lemma {:induction false} ResolveLeaps(loops: seq<LoopFrame>, lbl: Label)
    ensures Resolve(loops, lbl).Some? ==> Resolve(loops, lbl).value in ResolveLabel(Labels(loops), lbl)
  {
    if loops != [] && lbl != None && loops[|loops| - 1].lbl != lbl {
      ResolveLeaps(loops[..|loops| - 1], lbl);
      assert Labels(loops)[..|loops| - 1] == Labels(loops[..|loops| - 1]);
    }
  }

  lemma ExitTarget(c: Ctx, o: Outcome, leaves: set<nat>)
    requires o != Normal && TargetOf(c, o).Some?
    requires o.Ret? || ResolveLabel(Labels(c.loops), o.lbl) <= leaves
    ensures (TargetOf(c, o).value.dst, TargetOf(c, o).value.back) in Exits(c, leaves)
  {
    if !o.Ret? {
      ResolveLeaps(c.loops, o.lbl);
    }
  }

  lemma {:induction false} GoodUnwind(o: Outcome, c: Ctx, p: Point, n: nat, r: Ren, m: Mode)
    requires o != Normal && TargetOf(c, o).Some? && Wf(c, p, n) && Fits(c, m)
    ensures Good(Unwind(o, c, p, n, r), Exits(c, {}), p, n, m)
    decreases FramesSize(c.frames), 2
  {
    hide Body;
    TargetSize(c, o);
    match o {
      case Ret => BodiesFit(c.frames, 0, true, m.open, m.side, c.cl);
      case Brk(l) => BodiesFit(c.frames, c.loops[Resolve(c.loops, l).value].depth, false, m.open, m.side, c.cl);
      case Cont(l) => BodiesFit(c.frames, c.loops[Resolve(c.loops, l).value].depth, false, m.open, m.side, c.cl);
    }
    GoodChain(TargetOf(c, o).value.bodies, c, p, n, r, m);
  }

  lemma {:induction false} GoodExit(f: Frag, o: Outcome, c: Ctx, leaves: set<nat>, p: Point, n: nat, m: Mode)
    requires o != Normal && Wf(c, p, n) && Fits(c, m) && Good(f, Exits(c, leaves), p, n, m)
    ensures Good(LowerExit(f, o, c),
        Exits(c, (if o.Ret? then leaves else leaves + ResolveLabel(Labels(c.loops), o.lbl))), p, n, m)
    decreases FramesSize(c.frames), 3
  {
    hide Body, HeadOk, Branches, ExitsOf, Old, Fits, LowerE, LeavesE, FitsE, Unwind, TargetOf;
    var all := if o.Ret? then leaves else leaves + ResolveLabel(Labels(c.loops), o.lbl);
    OldExits(c, all, p, n);
    if TargetOf(c, o).None? {
      Widen(f, c, leaves, all, p, n, m);
      GoodClose(f, [], Exits(c, all), p, n, m);
    } else {
      var t := TargetOf(c, o).value;
      var g := Unwind(o, c, f.out, f.next, f.ren);
      GoodUnwind(o, c, f.out, f.next, f.ren, m);
      CatUnder(f, g, c, leaves, {}, all, p, n, m);
      ExitTarget(c, o, all);
      GoodLeave(Cat(f, g), t.dst, t.back, Exits(c, all), p, n, m);
    }
  }

  lemma GoodLeave(k: Frag, dst: nat, back: bool, X: Targets, p: Point, n: nat, m: Mode)
    requires Old(X, p, n) && Good(k, X, p, n, m) && (dst, back) in X
    ensures Good(Close(k, [Jump(k.out, dst, back)]), X, p, n, m)
  {
    hide Body;
    EndOf(k, X, p, n, m);
    GoodClose(k, [Jump(k.out, dst, back)], X, p, n, m);
  }

  lemma BodiesFitCtx(c: Ctx, m: Mode)
    requires Fits(c, m)
    ensures FitsBodies(TargetOf(c, Ret).value.bodies, m.open, m.side, c.cl)
    ensures m.exit == c.exit && (m.nest ==> c.inSink)
  {
    BodiesFit(c.frames, 0, true, m.open, m.side, c.cl);
  }

  /** Cleanup uses only fresh blocks. */
  lemma {:induction false} ChainSteps(bs: seq<Block>, c: Ctx, p: Point, n: nat, r: Ren, m: Mode)
    requires p.block < n && c.exit < n && p.block != c.exit
    requires m.exit == c.exit && (m.nest ==> c.inSink) && FitsBodies(bs, m.open, m.side, c.cl)
    ensures forall ev :: ev in LowerChain(bs, c, p, n, r).log && ev.Step? ==> ev.src.block >= n
    decreases BodiesSize(bs), 2
  {
    hide Linked, Flow;
    if bs != [] {
      var f := LowerBlock(bs[0], CleanupCtx(c), Point(n, 0), n + 1, PushFrame(r, Cu));
      GoodBlock(bs[0], CleanupCtx(c), Point(n, 0), n + 1, PushFrame(r, Cu), m);
      ChainSteps(bs[1..], c, f.out, f.next, PopFrame(f.ren), m);
    }
  }

  lemma {:induction false} GoodQuestion(e: Expr, c: Ctx, p: Point, n: nat, r: Ren, m: Mode)
    requires e.Question? && Wf(c, p, n) && Fits(c, m) && FitsE(e, m.open, m.side, c.cl)
    ensures Good(LowerE(e, c, p, n, r), Exits(c, LeavesE(e, Labels(c.loops))), p, n, m)
    decreases SizeE(e) + FramesSize(c.frames), 0
  {
    hide Body, HeadOk, Branches, ExitsOf, Old, Fits;
    var leaves := LeavesE(e, Labels(c.loops));
    var X := Exits(c, leaves);
    OldExits(c, leaves, p, n);
    TargetSize(c, Ret);
    var f := LowerE(e.inner, c, p, n, r);
    GoodE(e.inner, c, p, n, r, m);
    var g := Unwind(Ret, c, f.out, f.next, f.ren);
    GoodUnwind(Ret, c, f.out, f.next, f.ren, m);
    Widen(g, c, {}, leaves, f.out, f.next, m);
    GoodCat(f, g, X, p, n, m);
    BodiesFitCtx(c, m);
    ChainSteps(TargetOf(c, Ret).value.bodies, c, f.out, f.next, f.ren, m);
    FrontOf(f, g, X, p, n, m);
    var k := Cat(f, g);
    EndOf(k, X, p, n, m);
    ExitTarget(c, Ret, leaves);
    GoodClose(k, [Jump(k.out, c.exit, false), Jump(f.out, k.next, false)], X, p, n, m);
  }

  lemma OpenUp(f: Frag, X: Targets, p: Point, n: nat, m: Mode)
    requires Good(f, X, p, n, m)
    ensures Good(f, X, p, n, m.(open := true)) && (!m.open ==> Quiet(f.log))
  {
  }

  lemma ClosedExits(c: Ctx, leaves: set<nat>, m: Mode)
    requires Fits(c, m)
    ensures leaves == {} ==> Exits(c, leaves) <= {(m.exit, false)}
    ensures m.nest ==> c.inSink
  {
  }

  lemma {:induction false} GoodClosure(e: Expr, c: Ctx, p: Point, n: nat, r: Ren, m: Mode)
    requires e.Closure? && Wf(c, p, n) && Fits(c, m) && FitsE(e, m.open, m.side, c.cl)
    ensures Good(LowerE(e, c, p, n, r), Exits(c, LeavesE(e, Labels(c.loops))), p, n, m)
    decreases SizeE(e) + FramesSize(c.frames), 0
  {
    hide Body, HeadOk, Branches, ExitsOf, Old, Fits;
    var X := Exits(c, LeavesE(e, Labels(c.loops)));
    OldExits(c, LeavesE(e, Labels(c.loops)), p, n);
    GoodE(e.code, c, Point(n, 0), n + 2, r, m);
    OpenUp(LowerE(e.code, c, Point(n, 0), n + 2, r), X, Point(n, 0), n + 2, m);
    ClosedExits(c, LeavesE(e.code, Labels(c.loops)), m);
    GoodSide(p, n, LowerE(e.code, c, Point(n, 0), n + 2, r), c.inSink, LeavesE(e.code, Labels(c.loops)) == {}, X, X, m);
  }

  lemma {:induction false} GoodArgs(args: Args, c: Ctx, p: Point, n: nat, r: Ren, m: Mode)
    requires Wf(c, p, n) && Fits(c, m) && FitsArgs(args, m.open, m.side, c.cl)
    ensures Good(LowerArgs(args, c, p, n, r), Exits(c, LeavesArgs(args, Labels(c.loops))), p, n, m)
    decreases SizeArgs(args) + FramesSize(c.frames), 2
  {
    hide Body, HeadOk, Branches, ExitsOf, Old, Fits;
    var ls := Labels(c.loops);
    match args
    case ANil => EmptyGood(p, n, r, Exits(c, {}), m);
    case ACons(span, v, t) =>
      if span in c.cl.sinks {
        GoodArgs(t, c, p, n, r, m);
        Widen(LowerArgs(t, c, p, n, r), c, LeavesArgs(t, ls), LeavesArgs(args, ls), p, n, m);
      } else {
        var f := LowerE(v, c, p, n, r);
        GoodE(v, c, p, n, r, m);
        GoodArgs(t, c, f.out, f.next, f.ren, m);
        CatUnder(f, LowerArgs(t, c, f.out, f.next, f.ren), c, LeavesE(v, ls), LeavesArgs(t, ls), LeavesArgs(args, ls),
            p, n, m);
      }
  }

  /** Without a frontier a log may be continued at any later point of its first block. */
  lemma Rebase(f: Frag, q: Point, X: Targets, p: Point, n: nat, m: Mode)
    requires m.open && m.side && p.block < n && Good(f, X, p, n, m) && q.block == p.block && AtEnd(f.log, q, p)
    ensures Body(f.log, q, X, p, n, f.next, m)
  {
    hide Linked, Placed;
  }

  lemma {:induction false} GoodSinks(args: Args, c: Ctx, s: Point, n: nat, r: Ren, m: Mode)
    requires Wf(c, s, n) && Fits(c, m) && FitsArgs(args, m.open, m.side, c.cl) && m.open && m.side
    ensures var f := LowerSinks(args, c, s, n, r);
      Good(f, Exits(c, LeavesSinks(args, c.cl, Labels(c.loops))), s, n, m) && f.out.block == s.block
    decreases SizeArgs(args) + FramesSize(c.frames), 2
  {
    hide Body, HeadOk, Branches, ExitsOf, Old, Fits;
    var ls := Labels(c.loops);
    match args
    case ANil => EmptyGood(s, n, r, Exits(c, {}), m);
    case ACons(span, v, t) =>
      if span !in c.cl.sinks {
        GoodSinks(t, c, s, n, r, m);
        Widen(LowerSinks(t, c, s, n, r), c, LeavesSinks(t, c.cl, ls), LeavesSinks(args, c.cl, ls), s, n, m);
      } else {
        var leaves := LeavesSinks(args, c.cl, ls);
        OldExits(c, leaves, s, n);
        var f := LowerE(v, c, s, n, r);
        GoodE(v, c, s, n, r, m);
        Widen(f, c, LeavesE(v, ls), leaves, s, n, m);
        var q := Point(s.block, s.off + Steps(f.log, s.block));
        GoodSinks(t, c, q, f.next, f.ren, m);
        var g := LowerSinks(t, c, q, f.next, f.ren);
        Widen(g, c, LeavesSinks(t, c.cl, ls), leaves, q, f.next, m);
        Rebase(f, q, Exits(c, leaves), s, n, m);
        BodyCat(f.log, g.log, q, g.out, Exits(c, leaves), s, n, f.next, g.next, m);
      }
  }

  lemma {:induction false} SinksLeave(args: Args, cl: Classification, ls: seq<Label>)
    ensures LeavesSinks(args, cl, ls) <= LeavesArgs(args, ls)
  {
    if args.ACons? {
      SinksLeave(args.tail, cl, ls);
    }
  }

  lemma {:induction false} GoodCall(e: Expr, c: Ctx, p: Point, n: nat, r: Ren, m: Mode)
    requires e.MethodCall? && Wf(c, p, n) && Fits(c, m) && FitsE(e, m.open, m.side, c.cl)
    ensures Good(LowerE(e, c, p, n, r), Exits(c, LeavesE(e, Labels(c.loops))), p, n, m)
    decreases SizeE(e) + FramesSize(c.frames), 0
  {
    hide Body, HeadOk, Branches, ExitsOf, Old, Fits;
    var ls := Labels(c.loops);
    var leaves := LeavesE(e, ls);
    var f := LowerE(e.receiver, c, p, n, r);
    GoodE(e.receiver, c, p, n, r, m);
    var a := LowerArgs(e.actuals, c, f.out, f.next, f.ren);
    GoodArgs(e.actuals, c, f.out, f.next, f.ren, m);
    CatUnder(f, a, c, LeavesE(e.receiver, ls), LeavesArgs(e.actuals, ls), leaves, p, n, m);
    var k := Cat(f, a);
    if HasSink(e.actuals, c.cl) {
      SinksLeave(e.actuals, c.cl, ls);
      GoodSinkCall(e.actuals, c, k, leaves, p, n, m);
    }
  }

  lemma {:induction false} GoodSinkCall(args: Args, c: Ctx, k: Frag, leaves: set<nat>, p: Point, n: nat, m: Mode)
    requires Wf(c, p, n) && Fits(c, m) && m.side && FitsArgs(args, m.open, m.side, c.cl)
    requires LeavesSinks(args, c.cl, Labels(c.loops)) <= leaves && Good(k, Exits(c, leaves), p, n, m)
    ensures Good(Cat(k, Side(k.out, k.next, LowerSinks(args, c.(inSink := true), Point(k.next, 0), k.next + 2, k.ren),
                             c.inSink, LeavesSinks(args, c.cl, Labels(c.loops)) == {})), Exits(c, leaves), p, n, m)
    decreases SizeArgs(args) + FramesSize(c.frames), 3
  {
    hide Body, Old, LowerE, LeavesE, FitsE, LowerSinks;
    var inner := LeavesSinks(args, c.cl, Labels(c.loops));
    var c1 := c.(inSink := true);
    var m1 := m.(open := true, nest := true);
    OldExits(c, leaves, p, n);
    OldExits(c, leaves, k.out, k.next);
    var h := LowerSinks(args, c1, Point(k.next, 0), k.next + 2, k.ren);
    FitsCtxOpen(c1, m);
    GoodSinks(args, c1, Point(k.next, 0), k.next + 2, k.ren, m1);
    Unnest(h, Exits(c1, inner), Point(k.next, 0), k.next + 2, m);
    assert Exits(c1, inner) == Exits(c, inner);
    assert Exits(c, inner) <= Exits(c, leaves);
    GoodSide(k.out, k.next, h, c.inSink, inner == {}, Exits(c, inner), Exits(c, leaves), m);
    GoodCat(k, Side(k.out, k.next, h, c.inSink, inner == {}), Exits(c, leaves), p, n, m);
  }

  lemma Unnest(f: Frag, X: Targets, p: Point, n: nat, m: Mode)
    requires Good(f, X, p, n, m.(open := true, nest := true))
    ensures Good(f, X, p, n, m.(open := true)) && Quiet(f.log)
  {
    NestedQuiet(f.log);
  }

  lemma FitsCtxOpen(c: Ctx, m: Mode)
    requires m.side
    ensures FitsCtx(c, true, true)
    ensures forall args :: FitsArgs(args, true, true, c.cl)
  {
  }

  lemma {:induction false} GoodChain(bs: seq<Block>, c: Ctx, p: Point, n: nat, r: Ren, m: Mode)
    requires p.block < n && c.exit < n && p.block != c.exit
    requires m.exit == c.exit && (m.nest ==> c.inSink) && FitsBodies(bs, m.open, m.side, c.cl)
    ensures Good(LowerChain(bs, c, p, n, r), Exits(c, {}), p, n, m)
    decreases BodiesSize(bs), 1
  {
    hide Body;
    var X := Exits(c, {});
    if bs == [] {
      EmptyGood(p, n, r, X, m);
    } else {
      var f := LowerBlock(bs[0], CleanupCtx(c), Point(n, 0), n + 1, PushFrame(r, Cu));
      GoodBlock(bs[0], CleanupCtx(c), Point(n, 0), n + 1, PushFrame(r, Cu), m);
      assert Exits(CleanupCtx(c), LeavesB(bs[0], Labels(CleanupCtx(c).loops))) == X;
      GoodEnter(p, n, f, X, m);
      GoodChain(bs[1..], c, f.out, f.next, PopFrame(f.ren), m);
      GoodCat(Enter(p, n, f), LowerChain(bs[1..], c, f.out, f.next, PopFrame(f.ren)), X, p, n, m);
    }
  }

  lemma {:induction false} GoodBlock(b: Block, c: Ctx, p: Point, n: nat, r: Ren, m: Mode)
    requires Wf(c, p, n) && Fits(c, m) && FitsB(b, m.open, m.side, c.cl)
    ensures Good(LowerBlock(b, c, p, n, r), Exits(c, LeavesB(b, Labels(c.loops))), p, n, m)
    decreases SizeB(b) + FramesSize(c.frames), 3
  {
    hide Body, HeadOk, Branches, ExitsOf, Old, Fits;
    GoodRest(b, [], c, p, n, r, m);
  }

  lemma InScopeFits(c: Ctx, items: seq<Item>, m: Mode)
    requires Fits(c, m) && FitsItems(items, m.open, m.side, c.cl)
    ensures Fits(InScope(c, items), m)
  {
    var c1 := InScope(c, items);
    forall i | 0 <= i < |c1.frames|
      ensures FitsItems(c1.frames[i], m.open, m.side, c.cl)
    {
      if i < |c.frames| {
        assert c1.frames[..|c.frames|][i] == c1.frames[i];
      }
    }
  }

  lemma PushFits(items: seq<Item>, it: Item, m: Mode, cl: Classification)
    requires FitsItems(items, m.open, m.side, cl) && FitsB(it.body, m.open, m.side, cl)
    ensures FitsItems(Push(items, it), m.open, m.side, cl)
  {
    var s := Push(items, it);
    forall i | 0 <= i < |s|
      ensures FitsB(s[i].body, m.open, m.side, cl)
    {
      if i < |items| {
        assert s[..|items|][i] == s[i];
      }
    }
  }

  lemma {:induction false} GoodRest(b: Block, items: seq<Item>, c: Ctx, p: Point, n: nat, r: Ren, m: Mode)
    requires Wf(c, p, n) && Fits(c, m) && FitsB(b, m.open, m.side, c.cl) && FitsItems(items, m.open, m.side, c.cl)
    ensures Good(LowerRest(b, items, c, p, n, r), Exits(c, LeavesB(b, Labels(c.loops))), p, n, m)
    decreases SizeB(b) + ItemsSize(items) + FramesSize(c.frames), 2
  {
    hide Body, HeadOk, Branches, ExitsOf, Old, Fits, LowerE, LeavesE, LowerChain, LowerPlain;
    var ls := Labels(c.loops);
    var leaves := LeavesB(b, ls);
    var c1 := InScope(c, items);
    InScopeFits(c, items, m);
    match b
    case Done(e) =>
      var f := LowerE(e, c1, p, n, r);
      GoodE(e, c1, p, n, r, m);
      FrameBodiesSize(items, false);
      FrameBodiesFit(items, false, m.open, m.side, c.cl);
      GoodChain(FrameBodies(items, false), c, f.out, f.next, f.ren, m);
      CatUnder(f, LowerChain(FrameBodies(items, false), c, f.out, f.next, f.ren), c, leaves, {}, leaves, p, n, m);
    case Then(s, rest) =>
      assert leaves == LeavesS(s, ls) + LeavesB(rest, ls);
      assert SizeB(b) == 1 + SizeS(s) + SizeB(rest);
      match s
      case Defer(body) =>
        assert leaves == LeavesB(rest, ls) && SizeS(s) == 1 + SizeB(body);
        PushFits(items, Item(false, body), m, c.cl);
        PushSize(items, Item(false, body));
        GoodRest(rest, Push(items, Item(false, body)), c, p, n, r, m);
      case ErrDefer(body) =>
        assert leaves == LeavesB(rest, ls) && SizeS(s) == 1 + SizeB(body);
        PushFits(items, Item(true, body), m, c.cl);
        PushSize(items, Item(true, body));
        GoodRest(rest, Push(items, Item(true, body)), c, p, n, r, m);
      case LetElse(_, _, _) => GoodLetElse(b, items, c, p, n, r, m);
      case _ =>
        var f := LowerPlain(s, c1, p, n, r);
        GoodPlain(s, c1, p, n, r, m);
        GoodRest(rest, items, c, f.out, f.next, f.ren, m);
        CatUnder(f, LowerRest(rest, items, c, f.out, f.next, f.ren), c, LeavesS(s, ls), LeavesB(rest, ls), leaves, p, n,
            m);
  }

  lemma {:induction false} GoodLetElse(b: Block, items: seq<Item>, c: Ctx, p: Point, n: nat, r: Ren, m: Mode)
    requires Wf(c, p, n) && Fits(c, m) && FitsB(b, m.open, m.side, c.cl) && FitsItems(items, m.open, m.side, c.cl)
    requires b.Then? && b.first.LetElse?
    ensures Good(LowerRest(b, items, c, p, n, r), Exits(c, LeavesB(b, Labels(c.loops))), p, n, m)
    decreases SizeB(b) + ItemsSize(items) + FramesSize(c.frames), 1
  {
    hide Body, HeadOk, Branches, ExitsOf, Old, Fits, LowerE, LeavesE, FitsE, FitsItems;
    var s := b.first;
    var f := LowerE(s.value, InScope(c, items), p, n, r);
    var g := LowerBlock(s.diverge, InScope(c, items), Point(f.next, 0), f.next + 1, NoteAll(s.pat.names, f.ren));
    assert SizeB(b) == 1 + SizeS(s) + SizeB(b.rest);
    var leaves := LeavesB(b, Labels(c.loops));
    LetElseFront(s, items, c, p, n, r, m, f, g, leaves);
    var r1 := if AnySeen(s.pat.names, f.ren) then NoteAll(s.pat.names, PushFrame(g.ren, Sh)) else g.ren;
    var k := Aside(f, g);
    GoodRest(b.rest, items, c, k.out, k.next, r1, m);
    CatUnder(k, LowerRest(b.rest, items, c, k.out, k.next, r1), c, leaves, LeavesB(b.rest, Labels(c.loops)), leaves, p,
        n, m);
  }

  lemma {:induction false} LetElseFront(s: Stmt, items: seq<Item>, c: Ctx, p: Point, n: nat, r: Ren, m: Mode,
                                        f: Frag, g: Frag, leaves: set<nat>)
    requires Wf(c, p, n) && Fits(c, m) && s.LetElse? && FitsS(s, m.open, m.side, c.cl) &&
        FitsItems(items, m.open, m.side, c.cl)
    requires f == LowerE(s.value, InScope(c, items), p, n, r)
    requires g == LowerBlock(s.diverge, InScope(c, items), Point(f.next, 0), f.next + 1, NoteAll(s.pat.names, f.ren))
    requires LeavesS(s, Labels(c.loops)) <= leaves
    ensures Good(Aside(f, g), Exits(c, leaves), p, n, m)
    decreases SizeS(s) + ItemsSize(items) + FramesSize(c.frames), 1
  {
    hide Body, HeadOk, Branches, ExitsOf, Old, Fits;
    var ls := Labels(c.loops);
    var c1 := InScope(c, items);
    InScopeFits(c, items, m);
    ScopeSize(c, items);
    assert SizeS(s) == 1 + SizeE(s.value) + SizeB(s.diverge);
    OldExits(c, leaves, p, n);
    GoodE(s.value, c1, p, n, r, m);
    GoodBlock(s.diverge, c1, Point(f.next, 0), f.next + 1, NoteAll(s.pat.names, f.ren), m);
    Widen(f, c, LeavesE(s.value, ls), leaves, p, n, m);
    Widen(g, c, LeavesB(s.diverge, ls), leaves, Point(f.next, 0), f.next + 1, m);
    GoodAside(f, g, Exits(c, leaves), p, n, m);
  }

  lemma {:induction false} GoodPlain(s: Stmt, c: Ctx, p: Point, n: nat, r: Ren, m: Mode)
    requires IsPlain(s) && Wf(c, p, n) && Fits(c, m) && FitsS(s, m.open, m.side, c.cl)
    ensures Good(LowerPlain(s, c, p, n, r), Exits(c, LeavesS(s, Labels(c.loops))), p, n, m)
    decreases SizeS(s) + FramesSize(c.frames), 3
  {
    hide Body, HeadOk, Branches, ExitsOf, Old, Fits;
    var ls := Labels(c.loops);
    StmtExprSize(s);
    PlainExpr(s, ls, m, c.cl);
    var f := LowerE(StmtExpr(s), c, p, n, r);
    GoodE(StmtExpr(s), c, p, n, r, m);
    if s.Let? {
      GoodDefs(s.pat.names, s.pat.span, f.out, f.next, ShadowIfSeen(s.pat.names, f.ren), c, m);
    } else {
      EmptyGood(f.out, f.next, LowerIntro(s, f.out, f.next, f.ren).ren, Exits(c, {}), m);
    }
    CatUnder(f, LowerIntro(s, f.out, f.next, f.ren), c, LeavesE(StmtExpr(s), ls), {}, LeavesS(s, ls), p, n, m);
  }

  lemma PlainExpr(s: Stmt, ls: seq<Label>, m: Mode, cl: Classification)
    requires IsPlain(s) && FitsS(s, m.open, m.side, cl)
    ensures LeavesE(StmtExpr(s), ls) == LeavesS(s, ls)
    ensures FitsE(StmtExpr(s), m.open, m.side, cl)
  {
    match s
    case Assign(t, v) =>
      assert LeavesEs(ECons(v, ECons(t, ENil)), ls) == LeavesE(v, ls) + LeavesEs(ECons(t, ENil), ls);
      assert LeavesEs(ECons(t, ENil), ls) == LeavesE(t, ls);
      assert FitsEs(ECons(t, ENil), m.open, m.side, cl);
    case _ =>
  }

  /** The whole function body: the log of `LowerBody` is good. */
  lemma GoodLowering(body: Block, cl: Classification, params: seq<string>, m: Mode)
    requires m.exit == 1 && !m.nest && FitsB(body, m.open, m.side, cl)
    ensures var f := LowerBody(body, cl, params);
      && Local(f.log, {(1, false)}, Point(0, 0), 2, f.next) && f.next >= 2
      && Linked(f.log, 2, m) && MarksIn(f.log, f.out.block, 2, f.next)
      && Placed(f.log, Point(0, 0))
  {
    hide Linked, Placed, AtEnd;
    var c := Ctx(cl, 1, [], [], false);
    var r := Ren([], set i | 0 <= i < |params| :: params[i], 0);
    var f := LowerBlock(body, c, Point(0, 0), 2, r);
    GoodBlock(body, c, Point(0, 0), 2, r, m);
    var X := Exits(c, LeavesB(body, Labels([])));
    assert X == {(1, false)};
    EndOf(f, X, Point(0, 0), 2, m);
    JumpsCat([Jump(f.out, 1, false)], f.log, f.out, X, Point(0, 0), 2, f.next, m);
    FlowEdges(f.log, [Jump(f.out, 1, false)], f.out, Point(0, 0));
  }
}
