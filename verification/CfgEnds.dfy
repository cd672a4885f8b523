/** Whether the builder's lowering ends at all. Here cleanup bodies are lowered as the
    builder does it, with all scopes and loops of the exit still open, and fuel
    counts how deep cleanup lowering nests. */
module CfgEnds {
  import opened Options
  import opened CfgSyntax
  import opened CfgLowering
  import opened CfgTame

  type Frames = seq<seq<Item>>
  type Loops = seq<LoopFrame>

  // ── The recursion of the lowering ────────────────────────────────

  /** Lowering the expression ends within the fuel. */
  predicate EndsE(e: Expr, fs: Frames, ls: Loops, fuel: nat)
    decreases fuel, 2, e, 0
  {
    match e
    case Leaf => true
    case Use(_, _) => true
    case Ops(_, es) => EndsEs(es, fs, ls, fuel)
    case BlockE(b) => EndsB(b, fs, ls, fuel)
    case If(_, c, t, el) =>
      EndsE(c, fs, ls, fuel) && EndsB(t, fs, ls, fuel) && (el.Some? ==> EndsE(el.value, fs, ls, fuel))
    case Match(s, arms) => EndsE(s, fs, ls, fuel) && EndsArms(arms, fs, ls, fuel)
    case While(l, c, b) => EndsE(c, fs, ls, fuel) && EndsB(b, fs, Inside(ls, l, fs), fuel)
    case For(l, _, it, b) => EndsE(it, fs, ls, fuel) && EndsB(b, fs, Inside(ls, l, fs), fuel)
    case Loop(l, b) => EndsB(b, fs, Inside(ls, l, fs), fuel)
    case Break(l, v) => EndsE(v, fs, ls, fuel) && EndsJump(l, fs, ls, fuel)
    case Continue(l) => EndsJump(l, fs, ls, fuel)
    case Return(v) => EndsE(v, fs, ls, fuel) && EndsAll(Bodies(fs, 0, true), fs, ls, fuel)
    case Question(x) => EndsE(x, fs, ls, fuel) && EndsAll(Bodies(fs, 0, true), fs, ls, fuel)
    case Closure(x) => EndsE(x, fs, ls, fuel)
    case MethodCall(o, args) => EndsE(o, fs, ls, fuel) && EndsArgs(args, fs, ls, fuel)
  }

  function Inside(ls: Loops, lbl: Label, fs: Frames): Loops {
    ls + [LoopFrame(lbl, 0, 0, |fs|)]
  }

  predicate EndsJump(lbl: Label, fs: Frames, ls: Loops, fuel: nat)
    decreases fuel, 1
  {
    match Resolve(ls, lbl) case None => true case Some(i) => EndsAll(Bodies(fs, ls[i].depth, false), fs, ls, fuel)
  }

  /** Cleanup bodies, lowered with the scopes and loops of the exit. */
  predicate EndsAll(bs: seq<Block>, fs: Frames, ls: Loops, fuel: nat)
    decreases fuel, 0
  {
    bs == [] || (fuel > 0 && forall b :: b in bs ==> EndsB(b, fs, ls, fuel - 1))
  }

  predicate EndsEs(es: Exprs, fs: Frames, ls: Loops, fuel: nat)
    decreases fuel, 2, es, 0
  {
    match es case ENil => true case ECons(h, t) => EndsE(h, fs, ls, fuel) && EndsEs(t, fs, ls, fuel)
  }

  predicate EndsArgs(args: Args, fs: Frames, ls: Loops, fuel: nat)
    decreases fuel, 2, args, 0
  {
    match args case ANil => true case ACons(_, v, t) => EndsE(v, fs, ls, fuel) && EndsArgs(t, fs, ls, fuel)
  }

  predicate EndsArms(arms: Arms, fs: Frames, ls: Loops, fuel: nat)
    decreases fuel, 2, arms, 0
  {
    match arms
    case NoArm => true
    case Arm(_, g, b, others) => EndsE(g, fs, ls, fuel) && EndsE(b, fs, ls, fuel) && EndsArms(others, fs, ls, fuel)
  }

  /** A block opens a scope. */
  predicate EndsB(b: Block, fs: Frames, ls: Loops, fuel: nat)
    decreases fuel, 2, b, 1
  {
    EndsRest(b, [], fs, ls, fuel)
  }

  /** The rest of a block whose scope has registered `items`; at its end its own
      cleanup is lowered, before the scope is closed. */
  predicate EndsRest(b: Block, items: seq<Item>, fs: Frames, ls: Loops, fuel: nat)
    decreases fuel, 2, b, 0
  {
    var open := Push(fs, items);
    match b
    case Done(e) => EndsE(e, open, ls, fuel) && EndsAll(FrameBodies(items, false), open, ls, fuel)
    case Then(s, rest) =>
      match s
      case Let(_, v) => EndsE(v, open, ls, fuel) && EndsRest(rest, items, fs, ls, fuel)
      case LetUninit(_) => EndsRest(rest, items, fs, ls, fuel)
      case LetElse(_, v, diverge) =>
        EndsE(v, open, ls, fuel) && EndsB(diverge, open, ls, fuel) && EndsRest(rest, items, fs, ls, fuel)
      case Defer(body) => EndsRest(rest, Push(items, Item(false, body)), fs, ls, fuel)
      case ErrDefer(body) => EndsRest(rest, Push(items, Item(true, body)), fs, ls, fuel)
      case Assign(t, v) => EndsE(v, open, ls, fuel) && EndsE(t, open, ls, fuel) && EndsRest(rest, items, fs, ls, fuel)
      case ExprStmt(e) => EndsE(e, open, ls, fuel) && EndsRest(rest, items, fs, ls, fuel)
  }

  // ── What an exit in a cleanup body does ──────────────────────────

  /** Why a cleanup body may unwind itself: it exits, or leaves a loop by a label. */
  datatype Why = Exits | Leaves(lbl: Label)

  /** Outside errdefers there is a `return` or `?`, or a `break` or `continue` with the
      label and not to a loop of the tree itself; `own` are the loops passed so far. */
  predicate HasE(e: Expr, y: Why, own: seq<Label>) {
    match e
    case Leaf => false
    case Use(_, _) => false
    case Ops(_, es) => HasEs(es, y, own)
    case BlockE(b) => HasB(b, y, own)
    case If(_, c, t, el) => HasE(c, y, own) || HasB(t, y, own) || (el.Some? && HasE(el.value, y, own))
    case Match(s, arms) => HasE(s, y, own) || HasArms(arms, y, own)
    case While(l, c, b) => HasE(c, y, own) || HasB(b, y, own + [l])
    case For(l, _, it, b) => HasE(it, y, own) || HasB(b, y, own + [l])
    case Loop(l, b) => HasB(b, y, own + [l])
    case Break(l, v) => Left(y, l, own) || HasE(v, y, own)
    case Continue(l) => Left(y, l, own)
    case Return(v) => y.Exits? || HasE(v, y, own)
    case Question(x) => y.Exits? || HasE(x, y, own)
    case Closure(x) => HasE(x, y, own)
    case MethodCall(o, args) => HasE(o, y, own) || HasArgs(args, y, own)
  }

  predicate Left(y: Why, l: Label, own: seq<Label>) {
    y == Leaves(l) && !Known(own, l)
  }

  predicate HasEs(es: Exprs, y: Why, own: seq<Label>) {
    match es case ENil => false case ECons(h, t) => HasE(h, y, own) || HasEs(t, y, own)
  }

  predicate HasArgs(args: Args, y: Why, own: seq<Label>) {
    match args case ANil => false case ACons(_, v, t) => HasE(v, y, own) || HasArgs(t, y, own)
  }

  predicate HasArms(arms: Arms, y: Why, own: seq<Label>) {
    match arms
    case NoArm => false
    case Arm(_, g, b, others) => HasE(g, y, own) || HasE(b, y, own) || HasArms(others, y, own)
  }

  predicate HasB(b: Block, y: Why, own: seq<Label>) {
    match b case Done(e) => HasE(e, y, own) case Then(s, rest) => HasS(s, y, own) || HasB(rest, y, own)
  }

  predicate HasS(s: Stmt, y: Why, own: seq<Label>) {
    match s
    case Let(_, v) => HasE(v, y, own)
    case LetUninit(_) => false
    case LetElse(_, v, b) => HasE(v, y, own) || HasB(b, y, own)
    case Defer(b) => HasB(b, y, own)
    case ErrDefer(_) => false
    case Assign(t, v) => HasE(t, y, own) || HasE(v, y, own)
    case ExprStmt(e) => HasE(e, y, own)
  }

  // ── Runaway bodies ───────────────────────────────────────────────

  /** A defer body that exits, leaves a loop around its scope, or is runaway itself. */
  predicate BadDefer(d: Block, ls: seq<Label>)
    decreases d, 1
  {
    HasB(d, Exits, []) || LeavesAny(d, ls) || RunawayB(d, false, ls)
  }

  /** An errdefer body that exits or is runaway itself. */
  predicate BadErr(d: Block, ls: seq<Label>)
    decreases d, 1
  {
    HasB(d, Exits, []) || RunawayB(d, false, ls)
  }

  predicate LeavesAny(d: Block, ls: seq<Label>) {
    ls != [] && (HasB(d, Leaves(None), []) || exists i :: 0 <= i < |ls| && HasB(d, Leaves(ls[i]), []))
  }

  /** Somewhere a bad defer is registered, or a `return` or `?` is under a bad errdefer:
      `reg` says whether one is registered, `ls` are the labels of the loops around. */
  predicate RunawayE(e: Expr, reg: bool, ls: seq<Label>)
    decreases e, 0
  {
    match e
    case Leaf => false
    case Use(_, _) => false
    case Ops(_, es) => RunawayEs(es, reg, ls)
    case BlockE(b) => RunawayB(b, reg, ls)
    case If(_, c, t, el) => RunawayE(c, reg, ls) || RunawayB(t, reg, ls) || (el.Some? && RunawayE(el.value, reg, ls))
    case Match(s, arms) => RunawayE(s, reg, ls) || RunawayArms(arms, reg, ls)
    case While(l, c, b) => RunawayE(c, reg, ls) || RunawayB(b, reg, ls + [l])
    case For(l, _, it, b) => RunawayE(it, reg, ls) || RunawayB(b, reg, ls + [l])
    case Loop(l, b) => RunawayB(b, reg, ls + [l])
    case Break(_, v) => RunawayE(v, reg, ls)
    case Continue(_) => false
    case Return(v) => reg || RunawayE(v, reg, ls)
    case Question(x) => reg || RunawayE(x, reg, ls)
    case Closure(x) => RunawayE(x, reg, ls)
    case MethodCall(o, args) => RunawayE(o, reg, ls) || RunawayArgs(args, reg, ls)
  }

  predicate RunawayEs(es: Exprs, reg: bool, ls: seq<Label>)
    decreases es, 0
  {
    match es case ENil => false case ECons(h, t) => RunawayE(h, reg, ls) || RunawayEs(t, reg, ls)
  }

  predicate RunawayArgs(args: Args, reg: bool, ls: seq<Label>)
    decreases args, 0
  {
    match args case ANil => false case ACons(_, v, t) => RunawayE(v, reg, ls) || RunawayArgs(t, reg, ls)
  }

  predicate RunawayArms(arms: Arms, reg: bool, ls: seq<Label>)
    decreases arms, 0
  {
    match arms
    case NoArm => false
    case Arm(_, g, b, others) => RunawayE(g, reg, ls) || RunawayE(b, reg, ls) || RunawayArms(others, reg, ls)
  }

  predicate RunawayB(b: Block, reg: bool, ls: seq<Label>)
    decreases b, 0
  {
    match b
    case Done(e) => RunawayE(e, reg, ls)
    case Then(s, rest) =>
      match s
      case Let(_, v) => RunawayE(v, reg, ls) || RunawayB(rest, reg, ls)
      case LetUninit(_) => RunawayB(rest, reg, ls)
      case LetElse(_, v, d) => RunawayE(v, reg, ls) || RunawayB(d, reg, ls) || RunawayB(rest, reg, ls)
      case Defer(d) => BadDefer(d, ls) || RunawayB(rest, reg, ls)
      case ErrDefer(d) => RunawayB(rest, reg || BadErr(d, ls), ls)
      case Assign(t, v) => RunawayE(v, reg, ls) || RunawayE(t, reg, ls) || RunawayB(rest, reg, ls)
      case ExprStmt(e) => RunawayE(e, reg, ls) || RunawayB(rest, reg, ls)
  }

  // ── A body that unwinds itself ───────────────────────────────────

  lemma {:induction false} PickHas(items: seq<Item>, err: bool, d: Block)
    requires Item(err, d) in items
    ensures d in Pick(items, err)
  {
    if items[|items| - 1] != Item(err, d) {
      PickHas(items[..|items| - 1], err, d);
    }
  }

  lemma {:induction false} BodiesHave(fs: Frames, j: nat, it: Item, depth: nat, errorPath: bool)
    requires depth <= j < |fs| && it in fs[j] && (it.err ==> errorPath)
    ensures it.body in Bodies(fs, depth, errorPath)
    decreases |fs|
  {
    if j == |fs| - 1 {
      PickHas(fs[j], it.err, it.body);
      assert it.body in FrameBodies(fs[j], errorPath);
    } else {
      assert fs[..|fs| - 1][j] == fs[j];
      BodiesHave(fs[..|fs| - 1], j, it, depth, errorPath);
    }
  }

  lemma {:induction false} ResolvePast(ls: Loops, own: seq<Label>, l: Label)
    requires |own| <= |ls| && !Known(own, l) && forall k :: 0 <= k < |own| ==> ls[|ls| - |own| + k].lbl == own[k]
    ensures Resolve(ls, l) == Resolve(ls[..|ls| - |own|], l)
    decreases |own|
  {
    if own == [] {
      assert ls[..|ls|] == ls;
    } else {
      var front, mine := ls[..|ls| - 1], own[..|own| - 1];
      assert ls[|ls| - |own| + (|own| - 1)].lbl == own[|own| - 1];
      ResolvePast(front, mine, l);
      assert front[..|front| - |mine|] == ls[..|ls| - |own|];
    }
  }

  /** The body `d` is registered in scope `j`, and what it does unwinds that scope;
      the last loops are `own`. */
  ghost predicate Doomed(y: Why, own: seq<Label>, d: Block, err: bool, j: nat, fs: Frames, ls: Loops) {
    && j < |fs| && Item(err, d) in fs[j] && HasB(d, y, [])
    && (y.Leaves? ==>
          && !err && |own| <= |ls| && (forall k :: 0 <= k < |own| ==> ls[|ls| - |own| + k].lbl == own[k])
          && (var i := Resolve(ls[..|ls| - |own|], y.lbl); i.Some? && ls[i.value].depth <= j))
  }

  lemma DoomedLoop(y: Why, own: seq<Label>, d: Block, err: bool, j: nat, fs: Frames, ls: Loops, lbl: Label)
    requires Doomed(y, own, d, err, j, fs, ls)
    ensures Doomed(y, own + [lbl], d, err, j, fs, Inside(ls, lbl, fs))
  {
    hide HasB, Resolve;
    var ls1 := Inside(ls, lbl, fs);
    if y.Leaves? {
      assert ls1[..|ls1| - |own + [lbl]|] == ls[..|ls| - |own|];
    }
  }

  lemma DoomedScope(y: Why, own: seq<Label>, d: Block, err: bool, j: nat, fs: Frames, ls: Loops, items: seq<Item>)
    requires Doomed(y, own, d, err, j, fs, ls)
    ensures Doomed(y, own, d, err, j, Push(fs, items), ls)
  {
    hide HasB, Resolve;
    assert Push(fs, items)[..|fs|][j] == fs[j];
  }

  /** Unwinding the scope of a doomed body does not end. */
  lemma NeverUnwinds(y: Why, own: seq<Label>, d: Block, err: bool, j: nat, fs: Frames, ls: Loops, fuel: nat)
    requires Doomed(y, own, d, err, j, fs, ls)
    ensures y.Exits? ==> !EndsAll(Bodies(fs, 0, true), fs, ls, fuel)
    ensures y.Leaves? && !Known(own, y.lbl) ==> !EndsJump(y.lbl, fs, ls, fuel)
    decreases fuel, 1
  {
    hide HasB, Bodies;
    if y.Exits? {
      BodiesHave(fs, j, Item(err, d), 0, true);
      if fuel > 0 {
        NeverB(d, y, [], d, err, j, fs, ls, fuel - 1);
      }
    } else if !Known(own, y.lbl) {
      ResolvePast(ls, own, y.lbl);
      var i := Resolve(ls, y.lbl).value;
      BodiesHave(fs, j, Item(err, d), ls[i].depth, false);
      if fuel > 0 {
        assert ls[..|ls| - 0] == ls;
        NeverB(d, y, [], d, err, j, fs, ls, fuel - 1);
      }
    }
  }

  lemma {:induction false} NeverE(e: Expr, y: Why, own: seq<Label>, d: Block, err: bool, j: nat, fs: Frames, ls: Loops,
          fuel: nat)
    requires HasE(e, y, own) && Doomed(y, own, d, err, j, fs, ls)
    ensures !EndsE(e, fs, ls, fuel)
    decreases fuel, 2, e, 0
  {
    hide HasB, HasEs, HasArgs, HasArms, EndsB, EndsEs, EndsArgs, EndsArms, EndsAll, EndsJump, Bodies, Doomed, Inside;
    match e
    case Ops(_, es) => NeverEs(es, y, own, d, err, j, fs, ls, fuel);
    case BlockE(b) => NeverB(b, y, own, d, err, j, fs, ls, fuel);
    case If(_, c, t, el) =>
      if HasE(c, y, own) { NeverE(c, y, own, d, err, j, fs, ls, fuel); }
      else if HasB(t, y, own) { NeverB(t, y, own, d, err, j, fs, ls, fuel); }
      else { NeverE(el.value, y, own, d, err, j, fs, ls, fuel); }
    case Match(s, arms) =>
      if HasE(s, y, own) { NeverE(s, y, own, d, err, j, fs, ls, fuel); }
          else { NeverArms(arms, y, own, d, err, j, fs, ls, fuel); }
    case While(l, c, b) =>
      DoomedLoop(y, own, d, err, j, fs, ls, l);
      if HasE(c, y, own) { NeverE(c, y, own, d, err, j, fs, ls, fuel); }
      else { NeverB(b, y, own + [l], d, err, j, fs, Inside(ls, l, fs), fuel); }
    case For(l, _, it, b) =>
      DoomedLoop(y, own, d, err, j, fs, ls, l);
      if HasE(it, y, own) { NeverE(it, y, own, d, err, j, fs, ls, fuel); }
      else { NeverB(b, y, own + [l], d, err, j, fs, Inside(ls, l, fs), fuel); }
    case Loop(l, b) =>
      DoomedLoop(y, own, d, err, j, fs, ls, l);
      NeverB(b, y, own + [l], d, err, j, fs, Inside(ls, l, fs), fuel);
    case Break(l, v) =>
      if HasE(v, y, own) { NeverE(v, y, own, d, err, j, fs, ls, fuel); }
          else { NeverUnwinds(y, own, d, err, j, fs, ls, fuel); }
    case Continue(_) => NeverUnwinds(y, own, d, err, j, fs, ls, fuel);
    case Return(v) =>
      if HasE(v, y, own) { NeverE(v, y, own, d, err, j, fs, ls, fuel); }
          else { NeverUnwinds(y, own, d, err, j, fs, ls, fuel); }
    case Question(x) =>
      if HasE(x, y, own) { NeverE(x, y, own, d, err, j, fs, ls, fuel); }
          else { NeverUnwinds(y, own, d, err, j, fs, ls, fuel); }
    case Closure(x) => NeverE(x, y, own, d, err, j, fs, ls, fuel);
    case MethodCall(o, args) =>
      if HasE(o, y, own) { NeverE(o, y, own, d, err, j, fs, ls, fuel); }
          else { NeverArgs(args, y, own, d, err, j, fs, ls, fuel); }
  }

  lemma {:induction false} NeverEs(es: Exprs, y: Why, own: seq<Label>, d: Block, err: bool, j: nat, fs: Frames,
          ls: Loops, fuel: nat)
    requires HasEs(es, y, own) && Doomed(y, own, d, err, j, fs, ls)
    ensures !EndsEs(es, fs, ls, fuel)
    decreases fuel, 2, es, 0
  {
    hide Doomed;
    if HasE(es.head, y, own) { NeverE(es.head, y, own, d, err, j, fs, ls, fuel); }
        else { NeverEs(es.tail, y, own, d, err, j, fs, ls, fuel); }
  }

  lemma {:induction false} NeverArgs(args: Args, y: Why, own: seq<Label>, d: Block, err: bool, j: nat, fs: Frames,
          ls: Loops, fuel: nat)
    requires HasArgs(args, y, own) && Doomed(y, own, d, err, j, fs, ls)
    ensures !EndsArgs(args, fs, ls, fuel)
    decreases fuel, 2, args, 0
  {
    hide Doomed;
    if HasE(args.value, y, own) { NeverE(args.value, y, own, d, err, j, fs, ls, fuel); }
    else { NeverArgs(args.tail, y, own, d, err, j, fs, ls, fuel); }
  }

  lemma {:induction false} NeverArms(arms: Arms, y: Why, own: seq<Label>, d: Block, err: bool, j: nat, fs: Frames,
          ls: Loops, fuel: nat)
    requires HasArms(arms, y, own) && Doomed(y, own, d, err, j, fs, ls)
    ensures !EndsArms(arms, fs, ls, fuel)
    decreases fuel, 2, arms, 0
  {
    hide Doomed;
    if HasE(arms.guard, y, own) { NeverE(arms.guard, y, own, d, err, j, fs, ls, fuel); }
    else if HasE(arms.body, y, own) { NeverE(arms.body, y, own, d, err, j, fs, ls, fuel); }
    else { NeverArms(arms.others, y, own, d, err, j, fs, ls, fuel); }
  }

  lemma {:induction false} NeverB(b: Block, y: Why, own: seq<Label>, d: Block, err: bool, j: nat, fs: Frames,
          ls: Loops, fuel: nat)
    requires HasB(b, y, own) && Doomed(y, own, d, err, j, fs, ls)
    ensures !EndsB(b, fs, ls, fuel)
    decreases fuel, 2, b, 1
  {
    NeverRest(b, [], y, own, d, err, j, fs, ls, fuel);
  }

  /** What a statement registers. */
  function Registers(s: Stmt, items: seq<Item>): seq<Item> {
    match s
    case Defer(b) => Push(items, Item(false, b))
    case ErrDefer(b) => Push(items, Item(true, b))
    case _ => items
  }

  lemma {:induction false} NeverRest(b: Block, items: seq<Item>, y: Why, own: seq<Label>, d: Block, err: bool, j: nat,
          fs: Frames, ls: Loops, fuel: nat)
    requires HasB(b, y, own) && Doomed(y, own, d, err, j, fs, ls)
    ensures !EndsRest(b, items, fs, ls, fuel)
    decreases fuel, 2, b, 0
  {
    hide HasE, EndsE, EndsAll, Doomed, FrameBodies;
    var open := Push(fs, items);
    DoomedScope(y, own, d, err, j, fs, ls, items);
    match b
    case Done(e) => NeverE(e, y, own, d, err, j, open, ls, fuel);
    case Then(s, rest) =>
      if HasB(rest, y, own) {
        NeverRest(rest, Registers(s, items), y, own, d, err, j, fs, ls, fuel);
      } else {
        match s
        case Let(_, v) => NeverE(v, y, own, d, err, j, open, ls, fuel);
        case LetElse(_, v, o) =>
          if HasE(v, y, own) { NeverE(v, y, own, d, err, j, open, ls, fuel); }
            else { NeverB(o, y, own, d, err, j, open, ls, fuel); }
        case Defer(body) => NeverAtEnd(rest, Registers(s, items), body, y, own, d, err, j, fs, ls, fuel);
        case Assign(t, v) =>
          if HasE(v, y, own) { NeverE(v, y, own, d, err, j, open, ls, fuel); }
            else { NeverE(t, y, own, d, err, j, open, ls, fuel); }
        case ExprStmt(e) => NeverE(e, y, own, d, err, j, open, ls, fuel);
      }
  }

  /** The end of a block lowers the defers registered in it, with its scope open. */
  lemma {:induction false} NeverAtEnd(b: Block, items: seq<Item>, body: Block, y: Why, own: seq<Label>, d: Block,
          err: bool, j: nat,
                                      fs: Frames, ls: Loops, fuel: nat)
    requires Item(false, body) in items && HasB(body, y, own) && Doomed(y, own, d, err, j, fs, ls)
    ensures !EndsRest(b, items, fs, ls, fuel)
    decreases fuel, 2, b, 0
  {
    hide HasE, EndsE, HasB, Doomed;
    match b
    case Done(e) =>
      PickHas(items, false, body);
      assert body in FrameBodies(items, false);
      DoomedScope(y, own, d, err, j, fs, ls, items);
      if fuel > 0 {
        NeverB(body, y, own, d, err, j, Push(fs, items), ls, fuel - 1);
      }
    case Then(s, rest) => NeverAtEnd(rest, Registers(s, items), body, y, own, d, err, j, fs, ls, fuel);
  }

  // ── Runaway bodies do not end ────────────────────────────────────

  /** The labels are among the open loops, which are around the open scopes. */
  ghost predicate Around(labels: seq<Label>, fs: Frames, ls: Loops) {
    && (forall l :: Known(labels, l) ==> Resolve(ls, l).Some?)
    && (forall i :: 0 <= i < |ls| ==> ls[i].depth <= |fs|)
  }

  /** A bad errdefer is registered. */
  ghost predicate Armed(fs: Frames, ls: Loops) {
    exists j: nat, w: Block, labels :: j < |fs| && Item(true, w) in fs[j] && BadErr(w, labels) &&
        (forall l :: Known(labels, l) ==> Resolve(ls, l).Some?)
  }

  lemma KnownMore(labels: seq<Label>, lbl: Label, l: Label)
    ensures Known(labels + [lbl], l) <==> l == None || lbl == l || Known(labels, l)
  {
    assert (labels + [lbl])[..|labels|] == labels;
  }

  lemma ResolveMore(ls: Loops, f: LoopFrame, l: Label)
    ensures Resolve(ls + [f], l).Some? <==> l == None || f.lbl == l || Resolve(ls, l).Some?
  {
    assert (ls + [f])[..|ls|] == ls;
  }

  lemma AroundLoop(labels: seq<Label>, fs: Frames, ls: Loops, lbl: Label)
    requires Around(labels, fs, ls)
    ensures Around(labels + [lbl], fs, Inside(ls, lbl, fs)) && (Armed(fs, ls) ==> Armed(fs, Inside(ls, lbl, fs)))
  {
    hide BadErr;
    var f := LoopFrame(lbl, 0, 0, |fs|);
    forall l
      ensures Known(labels + [lbl], l) ==> Resolve(Inside(ls, lbl, fs), l).Some?
      ensures Resolve(ls, l).Some? ==> Resolve(Inside(ls, lbl, fs), l).Some?
    {
      KnownMore(labels, lbl, l);
      ResolveMore(ls, f, l);
    }
  }

  lemma AroundScope(labels: seq<Label>, fs: Frames, ls: Loops, items: seq<Item>)
    requires Around(labels, fs, ls)
    ensures Around(labels, Push(fs, items), ls) && (Armed(fs, ls) ==> Armed(Push(fs, items), ls))
  {
    hide BadErr;
    if Armed(fs, ls) {
      var j: nat, w: Block, ws :| j < |fs| && Item(true, w) in fs[j] && BadErr(w, ws) &&
          (forall l :: Known(ws, l) ==> Resolve(ls, l).Some?);
      assert Push(fs, items)[..|fs|][j] == fs[j];
    }
  }

  /** The scope with a bad errdefer among its items. */
  lemma ArmedScope(labels: seq<Label>, fs: Frames, ls: Loops, items: seq<Item>, w: Block)
    requires Around(labels, fs, ls) && Item(true, w) in items && BadErr(w, labels)
    ensures Armed(Push(fs, items), ls)
  {
    hide BadErr;
    assert Push(fs, items)[|fs|] == items;
  }

  /** An exit under a bad errdefer. */
  lemma NeverArmed(fs: Frames, ls: Loops, fuel: nat)
    requires Armed(fs, ls) && forall i :: 0 <= i < |ls| ==> ls[i].depth <= |fs|
    ensures !EndsAll(Bodies(fs, 0, true), fs, ls, fuel)
    decreases fuel, 1
  {
    hide Bodies, HasB, RunawayB;
    var j: nat, w: Block, ws :| j < |fs| && Item(true, w) in fs[j] && BadErr(w, ws) &&
        (forall l :: Known(ws, l) ==> Resolve(ls, l).Some?);
    BodiesHave(fs, j, Item(true, w), 0, true);
    if fuel > 0 {
      if HasB(w, Exits, []) {
        NeverB(w, Exits, [], w, true, j, fs, ls, fuel - 1);
      } else {
        RunsB(w, false, ws, fs, ls, fuel - 1);
      }
    }
  }

  lemma {:induction false} RunsE(e: Expr, reg: bool, labels: seq<Label>, fs: Frames, ls: Loops, fuel: nat)
    requires RunawayE(e, reg, labels) && Around(labels, fs, ls) && (reg ==> Armed(fs, ls))
    ensures !EndsE(e, fs, ls, fuel)
    decreases fuel, 3, e, 0
  {
    hide RunawayB, RunawayEs, RunawayArgs, RunawayArms, EndsB, EndsEs, EndsArgs, EndsArms, EndsAll, EndsJump, Bodies,
        Around, Armed, Inside;
    match e
    case Ops(_, es) => RunsEs(es, reg, labels, fs, ls, fuel);
    case BlockE(b) => RunsB(b, reg, labels, fs, ls, fuel);
    case If(_, c, t, el) =>
      if RunawayE(c, reg, labels) { RunsE(c, reg, labels, fs, ls, fuel); }
      else if RunawayB(t, reg, labels) { RunsB(t, reg, labels, fs, ls, fuel); }
      else { RunsE(el.value, reg, labels, fs, ls, fuel); }
    case Match(s, arms) =>
      if RunawayE(s, reg, labels) { RunsE(s, reg, labels, fs, ls, fuel); }
        else { RunsArms(arms, reg, labels, fs, ls, fuel); }
    case While(l, c, b) =>
      AroundLoop(labels, fs, ls, l);
      if RunawayE(c, reg, labels) { RunsE(c, reg, labels, fs, ls, fuel); }
          else { RunsB(b, reg, labels + [l], fs, Inside(ls, l, fs), fuel); }
    case For(l, _, it, b) =>
      AroundLoop(labels, fs, ls, l);
      if RunawayE(it, reg, labels) { RunsE(it, reg, labels, fs, ls, fuel); }
          else { RunsB(b, reg, labels + [l], fs, Inside(ls, l, fs), fuel); }
    case Loop(l, b) =>
      AroundLoop(labels, fs, ls, l);
      RunsB(b, reg, labels + [l], fs, Inside(ls, l, fs), fuel);
    case Break(_, v) => RunsE(v, reg, labels, fs, ls, fuel);
    case Return(v) =>
      if RunawayE(v, reg, labels) { RunsE(v, reg, labels, fs, ls, fuel); }
        else { Low(labels, fs, ls); NeverArmed(fs, ls, fuel); }
    case Question(x) =>
      if RunawayE(x, reg, labels) { RunsE(x, reg, labels, fs, ls, fuel); }
        else { Low(labels, fs, ls); NeverArmed(fs, ls, fuel); }
    case Closure(x) => RunsE(x, reg, labels, fs, ls, fuel);
    case MethodCall(o, args) =>
      if RunawayE(o, reg, labels) { RunsE(o, reg, labels, fs, ls, fuel); }
        else { RunsArgs(args, reg, labels, fs, ls, fuel); }
  }

  lemma Low(labels: seq<Label>, fs: Frames, ls: Loops)
    requires Around(labels, fs, ls)
    ensures forall i :: 0 <= i < |ls| ==> ls[i].depth <= |fs|
  {
  }

  lemma {:induction false} RunsEs(es: Exprs, reg: bool, labels: seq<Label>, fs: Frames, ls: Loops, fuel: nat)
    requires RunawayEs(es, reg, labels) && Around(labels, fs, ls) && (reg ==> Armed(fs, ls))
    ensures !EndsEs(es, fs, ls, fuel)
    decreases fuel, 3, es, 0
  {
    hide Around, Armed;
    if RunawayE(es.head, reg, labels) { RunsE(es.head, reg, labels, fs, ls, fuel); }
        else { RunsEs(es.tail, reg, labels, fs, ls, fuel); }
  }

  lemma {:induction false} RunsArgs(args: Args, reg: bool, labels: seq<Label>, fs: Frames, ls: Loops, fuel: nat)
    requires RunawayArgs(args, reg, labels) && Around(labels, fs, ls) && (reg ==> Armed(fs, ls))
    ensures !EndsArgs(args, fs, ls, fuel)
    decreases fuel, 3, args, 0
  {
    hide Around, Armed;
    if RunawayE(args.value, reg, labels) { RunsE(args.value, reg, labels, fs, ls, fuel); }
        else { RunsArgs(args.tail, reg, labels, fs, ls, fuel); }
  }

  lemma {:induction false} RunsArms(arms: Arms, reg: bool, labels: seq<Label>, fs: Frames, ls: Loops, fuel: nat)
    requires RunawayArms(arms, reg, labels) && Around(labels, fs, ls) && (reg ==> Armed(fs, ls))
    ensures !EndsArms(arms, fs, ls, fuel)
    decreases fuel, 3, arms, 0
  {
    hide Around, Armed;
    if RunawayE(arms.guard, reg, labels) { RunsE(arms.guard, reg, labels, fs, ls, fuel); }
    else if RunawayE(arms.body, reg, labels) { RunsE(arms.body, reg, labels, fs, ls, fuel); }
    else { RunsArms(arms.others, reg, labels, fs, ls, fuel); }
  }

  lemma {:induction false} RunsB(b: Block, reg: bool, labels: seq<Label>, fs: Frames, ls: Loops, fuel: nat)
    requires RunawayB(b, reg, labels) && Around(labels, fs, ls) && (reg ==> Armed(fs, ls))
    ensures !EndsB(b, fs, ls, fuel)
    decreases fuel, 3, b, 1
  {
    hide Around, Armed;
    RunsRest(b, [], reg, reg, labels, fs, ls, fuel);
  }

  /** `reg` says whether a bad errdefer is registered, `outside` whether one is outside this scope. */
  lemma {:induction false} RunsRest(b: Block, items: seq<Item>, reg: bool, outside: bool, labels: seq<Label>,
          fs: Frames, ls: Loops, fuel: nat)
    requires RunawayB(b, reg, labels) && Around(labels, fs, ls) && (outside ==> Armed(fs, ls))
    requires reg && !outside ==> exists w :: Item(true, w) in items && BadErr(w, labels)
    ensures !EndsRest(b, items, fs, ls, fuel)
    decreases fuel, 3, b, 0
  {
    hide RunawayE, EndsE, EndsAll, Around, Armed, FrameBodies, BadDefer, BadErr;
    var open := Push(fs, items);
    AroundScope(labels, fs, ls, items);
    if reg && !outside {
      var w :| Item(true, w) in items && BadErr(w, labels);
      ArmedScope(labels, fs, ls, items, w);
    }
    match b
    case Done(e) => RunsE(e, reg, labels, open, ls, fuel);
    case Then(s, rest) =>
      StillIn(s, items);
      match s
      case Let(_, v) =>
        if RunawayE(v, reg, labels) { RunsE(v, reg, labels, open, ls, fuel); }
          else { RunsRest(rest, items, reg, outside, labels, fs, ls, fuel); }
      case LetUninit(_) => RunsRest(rest, items, reg, outside, labels, fs, ls, fuel);
      case LetElse(_, v, o) =>
        if RunawayE(v, reg, labels) { RunsE(v, reg, labels, open, ls, fuel); }
        else if RunawayB(o, reg, labels) { RunsB(o, reg, labels, open, ls, fuel); }
        else { RunsRest(rest, items, reg, outside, labels, fs, ls, fuel); }
      case Defer(d) =>
        if BadDefer(d, labels) { RunsAtEnd(rest, Registers(s, items), d, labels, fs, ls, fuel); }
        else { RunsRest(rest, Registers(s, items), reg, outside, labels, fs, ls, fuel); }
      case ErrDefer(d) => RunsRest(rest, Registers(s, items), reg || BadErr(d, labels), outside, labels, fs, ls, fuel);
      case Assign(t, v) =>
        if RunawayE(v, reg, labels) { RunsE(v, reg, labels, open, ls, fuel); }
        else if RunawayE(t, reg, labels) { RunsE(t, reg, labels, open, ls, fuel); }
        else { RunsRest(rest, items, reg, outside, labels, fs, ls, fuel); }
      case ExprStmt(e) =>
        if RunawayE(e, reg, labels) { RunsE(e, reg, labels, open, ls, fuel); }
          else { RunsRest(rest, items, reg, outside, labels, fs, ls, fuel); }
  }

  lemma StillIn(s: Stmt, items: seq<Item>)
    ensures forall it :: it in items ==> it in Registers(s, items)
    ensures s.Defer? ==> Item(false, s.body) in Registers(s, items)
    ensures s.ErrDefer? ==> Item(true, s.body) in Registers(s, items)
  {
    var all := Registers(s, items);
    forall it | it in items
      ensures it in all
    {
      var i :| 0 <= i < |items| && items[i] == it;
      assert |all| > |items| ==> all[..|items|][i] == it;
    }
  }

  /** The end of a block with a bad defer. */
  lemma {:induction false} RunsAtEnd(b: Block, items: seq<Item>, d: Block, labels: seq<Label>, fs: Frames, ls: Loops,
          fuel: nat)
    requires Item(false, d) in items && BadDefer(d, labels) && Around(labels, fs, ls)
    ensures !EndsRest(b, items, fs, ls, fuel)
    decreases fuel, 3, b, 0
  {
    hide EndsE, HasB, RunawayB, Around, BadDefer;
    match b
    case Done(e) =>
      PickHas(items, false, d);
      assert d in FrameBodies(items, false);
      if fuel > 0 {
        NeverBad(items, d, labels, fs, ls, fuel - 1);
      }
    case Then(s, rest) =>
      StillIn(s, items);
      RunsAtEnd(rest, Registers(s, items), d, labels, fs, ls, fuel);
  }

  /** A bad defer, lowered at the end of its scope. */
  lemma NeverBad(items: seq<Item>, d: Block, labels: seq<Label>, fs: Frames, ls: Loops, fuel: nat)
    requires Item(false, d) in items && BadDefer(d, labels) && Around(labels, fs, ls)
    ensures !EndsB(d, Push(fs, items), ls, fuel)
    decreases fuel, 4
  {
    hide HasB, RunawayB, EndsB, Resolve, Known;
    var open := Push(fs, items);
    assert open[|fs|] == items;
    AroundScope(labels, fs, ls, items);
    if HasB(d, Exits, []) {
      NeverB(d, Exits, [], d, false, |fs|, open, ls, fuel);
    } else if RunawayB(d, false, labels) {
      RunsB(d, false, labels, open, ls, fuel);
    } else {
      var l := LeavingLabel(d, labels);
      assert ls[..|ls| - 0] == ls;
      NeverB(d, Leaves(l), [], d, false, |fs|, open, ls, fuel);
    }
  }

  lemma LeavingLabel(d: Block, labels: seq<Label>) returns (l: Label)
    requires LeavesAny(d, labels)
    ensures Known(labels, l) && HasB(d, Leaves(l), [])
  {
    hide HasB;
    if HasB(d, Leaves(None), []) {
      l := None;
    } else {
      var i :| 0 <= i < |labels| && HasB(d, Leaves(labels[i]), []);
      l := labels[i];
      KnownAt(labels, i);
    }
  }

  lemma {:induction false} KnownAt(labels: seq<Label>, i: nat)
    requires i < |labels|
    ensures Known(labels, labels[i])
  {
    if i < |labels| - 1 {
      KnownAt(labels[..|labels| - 1], i);
    }
  }
}
