/** Exactly when the lowering ends: when no cleanup body that unwinds its own scope is
    ever lowered, as `CfgEnds.RunawayB` decides from the text of the body. */
module CfgHalts {
  import opened Options
  import opened CfgSyntax
  import opened CfgLowering
  import opened CfgTame
  import opened CfgEnds

  // ── Labels of cleanup bodies ─────────────────────────────────────

  /** Every `break` and `continue` in a cleanup body has its loop around it in the text. */
  predicate LabE(e: Expr, inside: bool, ls: seq<Label>) {
    match e
    case Leaf => true
    case Use(_, _) => true
    case Ops(_, es) => LabEs(es, inside, ls)
    case BlockE(b) => LabB(b, inside, ls)
    case If(_, c, t, el) => LabE(c, inside, ls) && LabB(t, inside, ls) && (el.Some? ==> LabE(el.value, inside, ls))
    case Match(s, arms) => LabE(s, inside, ls) && LabArms(arms, inside, ls)
    case While(l, c, b) => LabE(c, inside, ls) && LabB(b, inside, ls + [l])
    case For(l, _, it, b) => LabE(it, inside, ls) && LabB(b, inside, ls + [l])
    case Loop(l, b) => LabB(b, inside, ls + [l])
    case Break(l, v) => LabE(v, inside, ls) && (inside ==> Known(ls, l))
    case Continue(l) => inside ==> Known(ls, l)
    case Return(v) => LabE(v, inside, ls)
    case Question(x) => LabE(x, inside, ls)
    case Closure(x) => LabE(x, inside, ls)
    case MethodCall(o, args) => LabE(o, inside, ls) && LabArgs(args, inside, ls)
  }

  predicate LabEs(es: Exprs, inside: bool, ls: seq<Label>) {
    match es case ENil => true case ECons(h, t) => LabE(h, inside, ls) && LabEs(t, inside, ls)
  }

  predicate LabArgs(args: Args, inside: bool, ls: seq<Label>) {
    match args case ANil => true case ACons(_, v, t) => LabE(v, inside, ls) && LabArgs(t, inside, ls)
  }

  predicate LabArms(arms: Arms, inside: bool, ls: seq<Label>) {
    match arms
    case NoArm => true
    case Arm(_, g, b, others) => LabE(g, inside, ls) && LabE(b, inside, ls) && LabArms(others, inside, ls)
  }

  predicate LabB(b: Block, inside: bool, ls: seq<Label>) {
    match b case Done(e) => LabE(e, inside, ls) case Then(s, rest) => LabS(s, inside, ls) && LabB(rest, inside, ls)
  }

  predicate LabS(s: Stmt, inside: bool, ls: seq<Label>) {
    match s
    case Let(_, v) => LabE(v, inside, ls)
    case LetUninit(_) => true
    case LetElse(_, v, b) => LabE(v, inside, ls) && LabB(b, inside, ls)
    case Defer(b) => LabB(b, true, ls)
    case ErrDefer(b) => LabB(b, true, ls)
    case Assign(t, v) => LabE(t, inside, ls) && LabE(v, inside, ls)
    case ExprStmt(e) => LabE(e, inside, ls)
  }

  // ── What is lowered, and as what ─────────────────────────────────

  /** The function's own code, an errdefer body at an exit, or a defer body. */
  datatype Role = Top | Err | Body

  /** The role, the loops around the cleanup body in the text, and those it is in itself. */
  datatype Part = Part(role: Role, around: seq<Label>, own: seq<Label>)

  function InsideLoop(q: Part, l: Label): (r: Part)
    ensures r.around + r.own == q.around + q.own + [l]
  {
    assert q.around + (q.own + [l]) == q.around + q.own + [l];
    q.(own := q.own + [l])
  }

  /** It is not runaway; only the function's own code exits, and a defer body stays in its own loops. */
  ghost predicate MayE(e: Expr, q: Part, reg: bool) {
    && !RunawayE(e, reg, q.around + q.own) && LabE(e, !q.role.Top?, q.around + q.own)
    && (!q.role.Top? ==> !HasE(e, Exits, q.own))
    && (q.role.Body? ==> forall l :: Known(q.around, l) ==> !HasE(e, Leaves(l), q.own))
  }

  ghost predicate MayEs(es: Exprs, q: Part, reg: bool) {
    && !RunawayEs(es, reg, q.around + q.own) && LabEs(es, !q.role.Top?, q.around + q.own)
    && (!q.role.Top? ==> !HasEs(es, Exits, q.own))
    && (q.role.Body? ==> forall l :: Known(q.around, l) ==> !HasEs(es, Leaves(l), q.own))
  }

  ghost predicate MayArgs(args: Args, q: Part, reg: bool) {
    && !RunawayArgs(args, reg, q.around + q.own) && LabArgs(args, !q.role.Top?, q.around + q.own)
    && (!q.role.Top? ==> !HasArgs(args, Exits, q.own))
    && (q.role.Body? ==> forall l :: Known(q.around, l) ==> !HasArgs(args, Leaves(l), q.own))
  }

  ghost predicate MayArms(arms: Arms, q: Part, reg: bool) {
    && !RunawayArms(arms, reg, q.around + q.own) && LabArms(arms, !q.role.Top?, q.around + q.own)
    && (!q.role.Top? ==> !HasArms(arms, Exits, q.own))
    && (q.role.Body? ==> forall l :: Known(q.around, l) ==> !HasArms(arms, Leaves(l), q.own))
  }

  ghost predicate MayB(b: Block, q: Part, reg: bool) {
    && !RunawayB(b, reg, q.around + q.own) && LabB(b, !q.role.Top?, q.around + q.own)
    && (!q.role.Top? ==> !HasB(b, Exits, q.own))
    && (q.role.Body? ==> forall l :: Known(q.around, l) ==> !HasB(b, Leaves(l), q.own))
  }

  ghost predicate GoodDefer(d: Block) {
    exists around :: !BadDefer(d, around) && LabB(d, true, around)
  }

  ghost predicate GoodErr(d: Block) {
    exists around :: !BadErr(d, around) && LabB(d, true, around)
  }

  /** The defers are good, and the errdefers as well if an exit may lower them. */
  ghost predicate GoodItem(it: Item, errs: bool) {
    if it.err then errs ==> GoodErr(it.body) else GoodDefer(it.body)
  }

  ghost predicate GoodItems(items: seq<Item>, errs: bool) {
    forall it :: it in items ==> GoodItem(it, errs)
  }

  /** What is lowered can unwind the scopes from `base` on only: those that a defer body
      opened itself, and all of them otherwise. */
  ghost predicate Fit(q: Part, reg: bool, fs: Frames, ls: Loops, base: nat) {
    && base <= |fs| && (!q.role.Body? ==> base == 0)
    && (forall i :: base <= i < |fs| ==> GoodItems(fs[i], Errs(q, reg)))
    && (q.role.Body? ==>
          && |q.own| <= |ls|
          && forall j :: 0 <= j < |q.own| ==>
              ls[|ls| - |q.own| + j].lbl == q.own[j] && ls[|ls| - |q.own| + j].depth >= base)
  }

  predicate Errs(q: Part, reg: bool) {
    q.role.Top? && !reg
  }

  /** The sizes of what is registered in the scopes from `base` on. */
  function SizeFrom(fs: Frames, base: nat): nat {
    if |fs| <= base then 0 else SizeFrom(fs[..|fs| - 1], base) + ItemsSize(fs[|fs| - 1])
  }

  /** The fuel that is enough. */
  function Need(q: Part, size: nat): nat {
    if q.role.Top? then 2 * size else size
  }

  // ── Entering loops and scopes ────────────────────────────────────

  lemma FitLoop(q: Part, reg: bool, fs: Frames, ls: Loops, base: nat, lbl: Label)
    requires Fit(q, reg, fs, ls, base)
    ensures Fit(InsideLoop(q, lbl), reg, fs, Inside(ls, lbl, fs), base)
  {
    hide GoodItems;
  }

  lemma FitScope(q: Part, reg: bool, fs: Frames, ls: Loops, base: nat, items: seq<Item>)
    requires Fit(q, reg, fs, ls, base) && GoodItems(items, Errs(q, reg))
    ensures Fit(q, reg, Push(fs, items), ls, base) &&
        SizeFrom(Push(fs, items), base) == SizeFrom(fs, base) + ItemsSize(items)
  {
    hide GoodItems;
    var open := Push(fs, items);
    forall i | base <= i < |open|
      ensures GoodItems(open[i], Errs(q, reg))
    {
      if i < |fs| {
        assert open[i] == open[..|fs|][i] == fs[i];
      }
    }
  }

  lemma FitMore(q: Part, reg: bool, more: bool, fs: Frames, ls: Loops, base: nat)
    requires Fit(q, reg, fs, ls, base)
    ensures Fit(q, reg || more, fs, ls, base)
  {
    hide GoodErr, GoodDefer;
  }

  lemma PushGood(items: seq<Item>, it: Item, errs: bool, less: bool)
    requires GoodItems(items, errs) && (less ==> errs) && GoodItem(it, less)
    ensures GoodItems(Push(items, it), less) && ItemsSize(Push(items, it)) == ItemsSize(items) + 1 + SizeB(it.body)
  {
    hide GoodErr, GoodDefer;
    forall x | x in Push(items, it)
      ensures GoodItem(x, less)
    {
      assert x in items || x == it;
    }
  }

  lemma PushErr(items: seq<Item>, body: Block, q: Part, reg: bool, reg1: bool)
    requires GoodItems(items, Errs(q, reg)) && (reg ==> reg1) && (reg1 || GoodErr(body))
    ensures GoodItems(Push(items, Item(true, body)), Errs(q, reg1))
    ensures ItemsSize(Push(items, Item(true, body))) == ItemsSize(items) + 1 + SizeB(body)
  {
    hide GoodErr, GoodDefer, GoodItems;
    PushGood(items, Item(true, body), Errs(q, reg), Errs(q, reg1));
  }

  // ── What an exit lowers ──────────────────────────────────────────

  lemma {:induction false} PickGood(items: seq<Item>, err: bool, errs: bool)
    requires GoodItems(items, errs) && (err ==> errs)
    ensures forall b :: b in Pick(items, err) ==>
        (if err then GoodErr(b) else GoodDefer(b)) && SizeB(b) < ItemsSize(items)
  {
    hide GoodErr, GoodDefer, SizeB;
    if items != [] {
      assert GoodItem(items[|items| - 1], errs);
      PickGood(items[..|items| - 1], err, errs);
    }
  }

  lemma {:induction false} BodiesGood(fs: Frames, base: nat, depth: nat, err: bool, errs: bool)
    requires base <= depth && (err ==> errs) && forall i :: base <= i < |fs| ==> GoodItems(fs[i], errs)
    ensures forall b :: b in Bodies(fs, depth, err) ==>
        (GoodDefer(b) || (err && GoodErr(b))) && SizeB(b) < SizeFrom(fs, base)
    decreases |fs|
  {
    hide GoodErr, GoodDefer, SizeB, GoodItems;
    if |fs| > depth {
      var last := fs[|fs| - 1];
      if err {
        PickGood(last, true, errs);
      }
      PickGood(last, false, errs);
      BodiesGood(fs[..|fs| - 1], base, depth, err, errs);
    }
  }

  /** A known label means a loop of the cleanup body itself. */
  lemma {:induction false} KnownLoop(own: seq<Label>, ls: Loops, lbl: Label)
    requires |own| <= |ls| && Known(own, lbl)
    requires forall j :: 0 <= j < |own| ==> ls[|ls| - |own| + j].lbl == own[j]
    ensures Resolve(ls, lbl).Some? && Resolve(ls, lbl).value >= |ls| - |own|
    decreases |own|
  {
    if !(lbl == None || own[|own| - 1] == lbl) {
      KnownLoop(own[..|own| - 1], ls[..|ls| - 1], lbl);
    }
  }

  lemma {:induction false} KnownIn(ls: seq<Label>, l: Label)
    requires Known(ls, l) && l != None
    ensures exists i :: 0 <= i < |ls| && ls[i] == l
  {
    if ls[|ls| - 1] != l {
      KnownIn(ls[..|ls| - 1], l);
    }
  }

  lemma {:induction false} KnownCat(a: seq<Label>, b: seq<Label>, l: Label)
    requires Known(a + b, l) && !Known(b, l)
    ensures Known(a, l)
    decreases |b|
  {
    if b == [] {
      assert a + b == a;
    } else {
      assert (a + b)[..|a + b| - 1] == a + b[..|b| - 1];
      KnownCat(a, b[..|b| - 1], l);
    }
  }

  lemma KnownSome(ls: seq<Label>, l: Label)
    ensures Known(ls, l) ==> ls != []
    ensures ls != [] ==> Known(ls, None)
  {
  }

  lemma DeferStays(d: Block, around: seq<Label>)
    requires !BadDefer(d, around) && LabB(d, true, around)
    ensures MayB(d, Part(Body, around, []), false)
  {
    hide HasB, RunawayB, LabB, Known;
    assert around + [] == around;
    forall l | Known(around, l)
      ensures !HasB(d, Leaves(l), [])
    {
      if l == None {
        KnownSome(around, l);
      } else {
        KnownIn(around, l);
      }
    }
  }

  // ── The lowering ends ────────────────────────────────────────────

  /** Defer bodies, lowered with the scopes and loops of the exit. */
  lemma DefersEnd(bs: seq<Block>, fs: Frames, ls: Loops, fuel: nat)
    requires forall b :: b in bs ==> GoodDefer(b) && SizeB(b) < fuel
    ensures EndsAll(bs, fs, ls, fuel)
    decreases fuel, 1
  {
    hide SizeB, BadDefer, LabB, MayB;
    if bs != [] {
      assert bs[0] in bs;
      forall b | b in bs
        ensures EndsB(b, fs, ls, fuel - 1)
      {
        DeferEnds(b, fs, ls, fuel - 1);
      }
    }
  }

  lemma DeferEnds(b: Block, fs: Frames, ls: Loops, fuel: nat)
    requires GoodDefer(b) && SizeB(b) <= fuel
    ensures EndsB(b, fs, ls, fuel)
    decreases fuel, 4
  {
    hide SizeB, BadDefer, LabB, MayB, EndsB;
    var around :| !BadDefer(b, around) && LabB(b, true, around);
    DeferStays(b, around);
    HaltsB(b, Part(Body, around, []), false, fs, ls, |fs|, fuel);
  }

  lemma ErrEnds(b: Block, fs: Frames, ls: Loops, fuel: nat)
    requires GoodErr(b) && SizeB(b) + SizeFrom(fs, 0) <= fuel && forall i :: 0 <= i < |fs| ==> GoodItems(fs[i], true)
    ensures EndsB(b, fs, ls, fuel)
    decreases fuel, 4
  {
    hide SizeB, LabB, EndsB, GoodDefer, RunawayB;
    var around :| !BadErr(b, around) && LabB(b, true, around);
    var q := Part(Err, around, []);
    assert around + [] == around;
    assert MayB(b, q, false);
    HaltsB(b, q, false, fs, ls, 0, fuel);
  }

  lemma JumpEnds(q: Part, reg: bool, lbl: Label, fs: Frames, ls: Loops, base: nat, fuel: nat)
    requires Fit(q, reg, fs, ls, base) && (q.role.Body? ==> Known(q.own, lbl)) && fuel >= SizeFrom(fs, base)
    ensures EndsJump(lbl, fs, ls, fuel)
    decreases fuel, 2
  {
    hide GoodItems, EndsAll, GoodDefer, GoodErr, SizeB;
    if q.role.Body? {
      KnownLoop(q.own, ls, lbl);
    }
    if Resolve(ls, lbl).Some? {
      var i := Resolve(ls, lbl).value;
      assert base <= ls[i].depth by {
        if q.role.Body? {
          var j := i - (|ls| - |q.own|);
          assert ls[|ls| - |q.own| + j].lbl == q.own[j];
        }
      }
      BodiesGood(fs, base, ls[i].depth, false, Errs(q, reg));
      DefersEnd(Bodies(fs, ls[i].depth, false), fs, ls, fuel);
    }
  }

  /** A label that a part may leave by. */
  lemma MayLeave(q: Part, lbl: Label, e: Expr, reg: bool)
    requires MayE(e, q, reg) && (e.Break? || e.Continue?) && e.lbl == lbl
    ensures q.role.Body? ==> Known(q.own, lbl)
  {
    hide RunawayE, Known;
    if q.role.Body? && !Known(q.own, lbl) {
      assert HasE(e, Leaves(lbl), q.own);
      KnownCat(q.around, q.own, lbl);
    }
  }

  /** An exit of the function's own code. */
  lemma ExitEnds(q: Part, fs: Frames, ls: Loops, fuel: nat)
    requires q.role.Top? && Fit(q, false, fs, ls, 0) && fuel >= 2 * SizeFrom(fs, 0)
    ensures EndsAll(Bodies(fs, 0, true), fs, ls, fuel)
    decreases fuel, 2
  {
    hide GoodItems, GoodDefer, GoodErr, SizeB, Bodies, EndsB;
    var bs := Bodies(fs, 0, true);
    BodiesGood(fs, 0, 0, true, true);
    if bs != [] {
      assert bs[0] in bs;
      forall b | b in bs
        ensures EndsB(b, fs, ls, fuel - 1)
      {
        if GoodDefer(b) {
          DeferEnds(b, fs, ls, fuel - 1);
        } else {
          ErrEnds(b, fs, ls, fuel - 1);
        }
      }
    }
  }

  // ── What may be lowered has parts that may ───────────────────────

  lemma MayOps(e: Expr, q: Part, reg: bool)
    requires e.Ops? && MayE(e, q, reg)
    ensures MayEs(e.args, q, reg)
  {
    hide RunawayB, RunawayEs, RunawayArgs, RunawayArms, HasB, HasEs, HasArgs, HasArms, LabB, LabEs, LabArgs, LabArms,
        Known;
  }

  lemma MayBlock(e: Expr, q: Part, reg: bool)
    requires e.BlockE? && MayE(e, q, reg)
    ensures MayB(e.body, q, reg)
  {
    hide RunawayB, RunawayEs, RunawayArgs, RunawayArms, HasB, HasEs, HasArgs, HasArms, LabB, LabEs, LabArgs, LabArms,
        Known;
  }

  lemma MayIf(e: Expr, q: Part, reg: bool)
    requires e.If? && MayE(e, q, reg)
    ensures MayE(e.cond, q, reg) && MayB(e.thenBranch, q, reg) &&
        (e.elseBranch.Some? ==> MayE(e.elseBranch.value, q, reg))
  {
    hide RunawayB, RunawayEs, RunawayArgs, RunawayArms, HasB, HasEs, HasArgs, HasArms, LabB, LabEs, LabArgs, LabArms,
        Known;
  }

  lemma MayMatch(e: Expr, q: Part, reg: bool)
    requires e.Match? && MayE(e, q, reg)
    ensures MayE(e.scrutinee, q, reg) && MayArms(e.arms, q, reg)
  {
    hide RunawayB, RunawayEs, RunawayArgs, RunawayArms, HasB, HasEs, HasArgs, HasArms, LabB, LabEs, LabArgs, LabArms,
        Known;
  }

  lemma MayWhile(e: Expr, q: Part, reg: bool)
    requires e.While? && MayE(e, q, reg)
    ensures MayE(e.cond, q, reg) && MayB(e.body, InsideLoop(q, e.lbl), reg)
  {
    hide RunawayB, RunawayEs, RunawayArgs, RunawayArms, HasB, HasEs, HasArgs, HasArms, LabB, LabEs, LabArgs, LabArms,
        Known;
  }

  lemma MayFor(e: Expr, q: Part, reg: bool)
    requires e.For? && MayE(e, q, reg)
    ensures MayE(e.iterable, q, reg) && MayB(e.body, InsideLoop(q, e.lbl), reg)
  {
    hide RunawayB, RunawayEs, RunawayArgs, RunawayArms, HasB, HasEs, HasArgs, HasArms, LabB, LabEs, LabArgs, LabArms,
        Known;
  }

  lemma MayLoop(e: Expr, q: Part, reg: bool)
    requires e.Loop? && MayE(e, q, reg)
    ensures MayB(e.body, InsideLoop(q, e.lbl), reg)
  {
    hide RunawayB, RunawayEs, RunawayArgs, RunawayArms, HasB, HasEs, HasArgs, HasArms, LabB, LabEs, LabArgs, LabArms,
        Known;
  }

  lemma MayBreak(e: Expr, q: Part, reg: bool)
    requires e.Break? && MayE(e, q, reg)
    ensures MayE(e.value, q, reg)
  {
    hide RunawayB, RunawayEs, RunawayArgs, RunawayArms, HasB, HasEs, HasArgs, HasArms, LabB, LabEs, LabArgs, LabArms,
        Known;
  }

  lemma MayReturn(e: Expr, q: Part, reg: bool)
    requires e.Return? && MayE(e, q, reg)
    ensures MayE(e.value, q, reg) && q.role.Top? && !reg
  {
    hide RunawayB, RunawayEs, RunawayArgs, RunawayArms, HasB, HasEs, HasArgs, HasArms, LabB, LabEs, LabArgs, LabArms,
        Known;
  }

  lemma MayQuestion(e: Expr, q: Part, reg: bool)
    requires e.Question? && MayE(e, q, reg)
    ensures MayE(e.inner, q, reg) && q.role.Top? && !reg
  {
    hide RunawayB, RunawayEs, RunawayArgs, RunawayArms, HasB, HasEs, HasArgs, HasArms, LabB, LabEs, LabArgs, LabArms,
        Known;
  }

  lemma MayClosure(e: Expr, q: Part, reg: bool)
    requires e.Closure? && MayE(e, q, reg)
    ensures MayE(e.code, q, reg)
  {
    hide RunawayB, RunawayEs, RunawayArgs, RunawayArms, HasB, HasEs, HasArgs, HasArms, LabB, LabEs, LabArgs, LabArms,
        Known;
  }

  lemma MayCall(e: Expr, q: Part, reg: bool)
    requires e.MethodCall? && MayE(e, q, reg)
    ensures MayE(e.receiver, q, reg) && MayArgs(e.actuals, q, reg)
  {
    hide RunawayB, RunawayEs, RunawayArgs, RunawayArms, HasB, HasEs, HasArgs, HasArms, LabB, LabEs, LabArgs, LabArms,
        Known;
  }

  ghost predicate QuietS(s: Stmt, q: Part) {
    && LabS(s, !q.role.Top?, q.around + q.own)
    && (!q.role.Top? ==> !HasS(s, Exits, q.own))
    && (q.role.Body? ==> forall l :: Known(q.around, l) ==> !HasS(s, Leaves(l), q.own))
  }

  ghost predicate QuietB(b: Block, q: Part) {
    && LabB(b, !q.role.Top?, q.around + q.own)
    && (!q.role.Top? ==> !HasB(b, Exits, q.own))
    && (q.role.Body? ==> forall l :: Known(q.around, l) ==> !HasB(b, Leaves(l), q.own))
  }

  lemma MayThen(b: Block, q: Part, reg: bool)
    requires b.Then? && MayB(b, q, reg)
    ensures QuietS(b.first, q) && QuietB(b.rest, q)
  {
    hide RunawayB, HasS, LabS, Known;
  }

  lemma MayDone(b: Block, q: Part, reg: bool)
    requires b.Done? && MayB(b, q, reg)
    ensures MayE(b.final, q, reg)
  {
    hide RunawayE, HasE, LabE, Known;
  }

  /** The statements that register nothing. */
  lemma MayStmt(b: Block, q: Part, reg: bool)
    requires b.Then? && !b.first.Defer? && !b.first.ErrDefer? && MayB(b, q, reg)
    ensures MayB(b.rest, q, reg)
    ensures var s := b.first;
      && ((s.Let? || s.LetElse? || s.Assign?) ==> MayE(s.value, q, reg))
      && (s.LetElse? ==> MayB(s.diverge, q, reg))
      && (s.Assign? ==> MayE(s.target, q, reg))
      && (s.ExprStmt? ==> MayE(s.e, q, reg))
  {
    hide RunawayE, HasE, LabE, Known;
    MayThen(b, q, reg);
    hide HasB, LabB;
  }

  lemma MayDefer(b: Block, q: Part, reg: bool)
    requires b.Then? && b.first.Defer? && MayB(b, q, reg)
    ensures MayB(b.rest, q, reg) && GoodDefer(b.first.body)
  {
    hide BadDefer, Known;
    MayThen(b, q, reg);
    hide HasB, LabB;
    assert !BadDefer(b.first.body, q.around + q.own);
    assert LabB(b.first.body, true, q.around + q.own);
  }

  lemma MayErr(b: Block, q: Part, reg: bool)
    requires b.Then? && b.first.ErrDefer? && MayB(b, q, reg)
    ensures MayB(b.rest, q, reg || BadErr(b.first.body, q.around + q.own))
    ensures reg || BadErr(b.first.body, q.around + q.own) || GoodErr(b.first.body)
  {
    hide BadErr, Known;
    MayThen(b, q, reg);
    hide HasB, LabB;
    assert LabB(b.first.body, true, q.around + q.own);
  }

  lemma {:induction false} HaltsE(e: Expr, q: Part, reg: bool, fs: Frames, ls: Loops, base: nat, fuel: nat)
    requires MayE(e, q, reg) && Fit(q, reg, fs, ls, base) && fuel >= Need(q, SizeE(e) + SizeFrom(fs, base))
    ensures EndsE(e, fs, ls, fuel)
    decreases fuel, 3, e, 1
  {
    hide Fit, MayE, MayB, MayEs, MayArgs, MayArms,
         EndsEs, EndsArgs, EndsArms, EndsB, EndsAll, EndsJump, Bodies, RunawayE, HasE, LabE, SizeFrom, SizeEs, SizeArgs,
             SizeArms, SizeB, Known, InsideLoop;
    match e
    case Leaf =>
    case Use(_, _) =>
    case Ops(_, es) =>
      MayOps(e, q, reg);
      HaltsEs(es, q, reg, fs, ls, base, fuel);
    case BlockE(b) =>
      MayBlock(e, q, reg);
      HaltsB(b, q, reg, fs, ls, base, fuel);
    case If(_, c, t, el) =>
      MayIf(e, q, reg);
      HaltsE(c, q, reg, fs, ls, base, fuel);
      HaltsB(t, q, reg, fs, ls, base, fuel);
      if el.Some? { HaltsE(el.value, q, reg, fs, ls, base, fuel); }
    case Match(s, arms) =>
      MayMatch(e, q, reg);
      HaltsE(s, q, reg, fs, ls, base, fuel);
      HaltsArms(arms, q, reg, fs, ls, base, fuel);
    case While(l, c, b) =>
      MayWhile(e, q, reg);
      HaltsE(c, q, reg, fs, ls, base, fuel);
      HaltsLoop(l, b, q, reg, fs, ls, base, fuel);
    case For(l, _, it, b) =>
      MayFor(e, q, reg);
      HaltsE(it, q, reg, fs, ls, base, fuel);
      HaltsLoop(l, b, q, reg, fs, ls, base, fuel);
    case Loop(l, b) =>
      MayLoop(e, q, reg);
      HaltsLoop(l, b, q, reg, fs, ls, base, fuel);
    case Break(_, _) => HaltsLeave(e, q, reg, fs, ls, base, fuel);
    case Continue(_) => HaltsLeave(e, q, reg, fs, ls, base, fuel);
    case Return(_) => HaltsLeave(e, q, reg, fs, ls, base, fuel);
    case Question(_) => HaltsLeave(e, q, reg, fs, ls, base, fuel);
    case Closure(x) =>
      MayClosure(e, q, reg);
      HaltsE(x, q, reg, fs, ls, base, fuel);
    case MethodCall(o, args) =>
      MayCall(e, q, reg);
      HaltsE(o, q, reg, fs, ls, base, fuel);
      HaltsArgs(args, q, reg, fs, ls, base, fuel);
  }

  lemma {:induction false} HaltsLeave(e: Expr, q: Part, reg: bool, fs: Frames, ls: Loops, base: nat, fuel: nat)
    requires e.Break? || e.Continue? || e.Return? || e.Question?
    requires MayE(e, q, reg) && Fit(q, reg, fs, ls, base) && fuel >= Need(q, SizeE(e) + SizeFrom(fs, base))
    ensures EndsE(e, fs, ls, fuel)
    decreases fuel, 3, e, 0
  {
    hide Fit, MayE, MayB, MayEs, MayArgs, MayArms,
         EndsEs, EndsArgs, EndsArms, EndsB, EndsAll, EndsJump, Bodies, RunawayE, HasE, LabE, SizeFrom, SizeEs, SizeArgs,
             SizeArms, SizeB, Known, InsideLoop;
    match e
    case Break(l, v) =>
      MayBreak(e, q, reg);
      HaltsE(v, q, reg, fs, ls, base, fuel);
      MayLeave(q, l, e, reg);
      JumpEnds(q, reg, l, fs, ls, base, fuel);
    case Continue(l) =>
      MayLeave(q, l, e, reg);
      JumpEnds(q, reg, l, fs, ls, base, fuel);
    case Return(v) =>
      MayReturn(e, q, reg);
      HaltsE(v, q, reg, fs, ls, base, fuel);
      Based(q, reg, fs, ls, base);
      ExitEnds(q, fs, ls, fuel);
    case Question(x) =>
      MayQuestion(e, q, reg);
      HaltsE(x, q, reg, fs, ls, base, fuel);
      Based(q, reg, fs, ls, base);
      ExitEnds(q, fs, ls, fuel);
  }

  lemma Based(q: Part, reg: bool, fs: Frames, ls: Loops, base: nat)
    requires Fit(q, reg, fs, ls, base)
    ensures q.role.Body? || base == 0
  {
  }

  lemma {:induction false} HaltsLoop(l: Label, b: Block, q: Part, reg: bool, fs: Frames, ls: Loops, base: nat,
          fuel: nat)
    requires Fit(q, reg, fs, ls, base) && fuel >= Need(q, SizeB(b) + SizeFrom(fs, base))
    requires MayB(b, InsideLoop(q, l), reg)
    ensures EndsB(b, fs, Inside(ls, l, fs), fuel)
    decreases fuel, 3, b, 2
  {
    hide Fit, MayB, EndsB, SizeB, SizeFrom, Inside;
    FitLoop(q, reg, fs, ls, base, l);
    HaltsB(b, InsideLoop(q, l), reg, fs, Inside(ls, l, fs), base, fuel);
  }

  lemma {:induction false} HaltsEs(es: Exprs, q: Part, reg: bool, fs: Frames, ls: Loops, base: nat, fuel: nat)
    requires MayEs(es, q, reg) && Fit(q, reg, fs, ls, base) && fuel >= Need(q, SizeEs(es) + SizeFrom(fs, base))
    ensures EndsEs(es, fs, ls, fuel)
    decreases fuel, 3, es, 0
  {
    hide Fit, SizeFrom, RunawayE, LabE, HasE, EndsE, SizeE, Known;
    if es.ECons? {
      HaltsE(es.head, q, reg, fs, ls, base, fuel);
      HaltsEs(es.tail, q, reg, fs, ls, base, fuel);
    }
  }

  lemma {:induction false} HaltsArgs(args: Args, q: Part, reg: bool, fs: Frames, ls: Loops, base: nat, fuel: nat)
    requires MayArgs(args, q, reg) && Fit(q, reg, fs, ls, base) && fuel >= Need(q, SizeArgs(args) + SizeFrom(fs, base))
    ensures EndsArgs(args, fs, ls, fuel)
    decreases fuel, 3, args, 0
  {
    hide Fit, SizeFrom, RunawayE, LabE, HasE, EndsE, SizeE, Known;
    if args.ACons? {
      HaltsE(args.value, q, reg, fs, ls, base, fuel);
      HaltsArgs(args.tail, q, reg, fs, ls, base, fuel);
    }
  }

  lemma {:induction false} HaltsArms(arms: Arms, q: Part, reg: bool, fs: Frames, ls: Loops, base: nat, fuel: nat)
    requires MayArms(arms, q, reg) && Fit(q, reg, fs, ls, base) && fuel >= Need(q, SizeArms(arms) + SizeFrom(fs, base))
    ensures EndsArms(arms, fs, ls, fuel)
    decreases fuel, 3, arms, 0
  {
    hide Fit, SizeFrom, RunawayE, LabE, HasE, EndsE, SizeE, Known;
    if arms.Arm? {
      HaltsE(arms.guard, q, reg, fs, ls, base, fuel);
      HaltsE(arms.body, q, reg, fs, ls, base, fuel);
      HaltsArms(arms.others, q, reg, fs, ls, base, fuel);
    }
  }

  lemma {:induction false} HaltsB(b: Block, q: Part, reg: bool, fs: Frames, ls: Loops, base: nat, fuel: nat)
    requires MayB(b, q, reg) && Fit(q, reg, fs, ls, base) && fuel >= Need(q, SizeB(b) + SizeFrom(fs, base))
    ensures EndsB(b, fs, ls, fuel)
    decreases fuel, 3, b, 1
  {
    hide Fit, SizeFrom, MayB, SizeB, EndsRest;
    HaltsRest(b, [], q, reg, fs, ls, base, fuel);
  }

  lemma {:induction false} HaltsRest(b: Block, items: seq<Item>, q: Part, reg: bool, fs: Frames, ls: Loops, base: nat,
          fuel: nat)
    requires MayB(b, q, reg) && GoodItems(items, Errs(q, reg)) && Fit(q, reg, fs, ls, base)
    requires fuel >= Need(q, SizeB(b) + ItemsSize(items) + SizeFrom(fs, base))
    ensures EndsRest(b, items, fs, ls, fuel)
    decreases fuel, 3, b, 0
  {
    hide Fit, GoodItems, GoodDefer, GoodErr, MayE, MayB, EndsE, EndsAll, EndsB, SizeFrom, SizeE, ItemsSize, BadErr,
        Errs;
    var open := Push(fs, items);
    FitScope(q, reg, fs, ls, base, items);
    match b
    case Done(e) =>
      MayDone(b, q, reg);
      HaltsE(e, q, reg, open, ls, base, fuel);
      PickGood(items, false, Errs(q, reg));
      assert FrameBodies(items, false) == Pick(items, false);
      DefersEnd(FrameBodies(items, false), open, ls, fuel);
    case Then(s, rest) =>
      if !s.Defer? && !s.ErrDefer? {
        MayStmt(b, q, reg);
      }
      match s
      case Let(_, v) =>
        HaltsE(v, q, reg, open, ls, base, fuel);
        HaltsRest(rest, items, q, reg, fs, ls, base, fuel);
      case LetUninit(_) => HaltsRest(rest, items, q, reg, fs, ls, base, fuel);
      case LetElse(_, v, o) =>
        HaltsE(v, q, reg, open, ls, base, fuel);
        HaltsB(o, q, reg, open, ls, base, fuel);
        HaltsRest(rest, items, q, reg, fs, ls, base, fuel);
      case Defer(body) =>
        MayDefer(b, q, reg);
        PushGood(items, Item(false, body), Errs(q, reg), Errs(q, reg));
        HaltsRest(rest, Push(items, Item(false, body)), q, reg, fs, ls, base, fuel);
      case ErrDefer(body) =>
        MayErr(b, q, reg);
        var reg1 := reg || BadErr(body, q.around + q.own);
        PushErr(items, body, q, reg, reg1);
        FitMore(q, reg, reg1, fs, ls, base);
        HaltsRest(rest, Push(items, Item(true, body)), q, reg1, fs, ls, base, fuel);
      case Assign(t, v) =>
        HaltsE(v, q, reg, open, ls, base, fuel);
        HaltsE(t, q, reg, open, ls, base, fuel);
        HaltsRest(rest, items, q, reg, fs, ls, base, fuel);
      case ExprStmt(e) =>
        HaltsE(e, q, reg, open, ls, base, fuel);
        HaltsRest(rest, items, q, reg, fs, ls, base, fuel);
  }

  // ── The exact condition ──────────────────────────────────────────

  /** On a runaway body no nesting depth is enough, whatever the labels. */
  lemma NeverEnds(body: Block, fuel: nat)
    requires RunawayB(body, false, [])
    ensures !EndsB(body, [], [], fuel)
  {
    hide RunawayB;
    RunsB(body, false, [], [], [], fuel);
  }

  /** When the labels in cleanup bodies are in order, lowering ends exactly if the body is
      not runaway, and then cleanup nests no deeper than twice the body's size. */
  lemma EndsExactly(body: Block)
    requires LabB(body, false, [])
    ensures (exists fuel :: EndsB(body, [], [], fuel)) <==> !RunawayB(body, false, [])
    ensures !RunawayB(body, false, []) ==> EndsB(body, [], [], 2 * SizeB(body))
  {
    hide RunawayB, EndsB, LabB, SizeB;
    if RunawayB(body, false, []) {
      forall fuel
        ensures !EndsB(body, [], [], fuel)
      {
        NeverEnds(body, fuel);
      }
    } else {
      var q := Part(Top, [], []);
      assert q.around + q.own == [];
      HaltsB(body, q, false, [], [], 0, 2 * SizeB(body));
    }
  }

  // ── Instances ────────────────────────────────────────────────────

  /** `loop { defer { break } }` never ends, */
  lemma BreakingDefer()
    ensures RunawayB(Done(Loop(None, Then(Defer(Done(Break(None, Leaf))), Done(Leaf)))), false, [])
  {
    var d := Done(Break(None, Leaf));
    assert HasB(d, Leaves(None), []);
    var none: Label := None;
    assert BadDefer(d, [none]);
    assert [] + [none] == [none];
  }

  /** and neither does `errdefer { return }` before a `return`; behind it it does no harm. */
  lemma ReturningErrDefer()
    ensures RunawayB(Then(ErrDefer(Done(Return(Leaf))), Done(Return(Leaf))), false, [])
    ensures !RunawayB(Then(ExprStmt(Return(Leaf)), Then(ErrDefer(Done(Return(Leaf))), Done(Leaf))), false, [])
  {
    assert HasB(Done(Return(Leaf)), Exits, []);
  }

  // ── Tame bodies ──────────────────────────────────────────────────

  lemma {:induction false} KnownMoreAround(a: seq<Label>, b: seq<Label>, l: Label)
    requires Known(b, l)
    ensures Known(a + b, l)
    decreases |b|
  {
    assert (a + b)[..|a + b| - 1] == a + b[..|b| - 1];
    if !(l == None || b[|b| - 1] == l) {
      KnownMoreAround(a, b[..|b| - 1], l);
    }
  }

  predicate Suffix(tail: seq<Label>, all: seq<Label>) {
    |tail| <= |all| && all[|all| - |tail|..] == tail
  }

  lemma KnownTail(q: Part, tail: seq<Label>, l: Label)
    requires Known(tail, l) && Suffix(tail, q.own)
    ensures Known(q.own, l) && Known(q.around + q.own, l)
  {
    var pre := q.own[..|q.own| - |tail|];
    assert q.own == pre + tail;
    KnownMoreAround(pre, tail, l);
    KnownMoreAround(q.around, q.own, l);
  }

  lemma {:induction false} TameMayE(e: Expr, q: Part, tail: seq<Label>)
    requires TameE(e, !q.role.Top?, tail) && !q.role.Err? && Suffix(tail, q.own)
    ensures MayE(e, q, false)
  {
    hide TameB, TameEs, TameArgs, TameArms, RunawayB, RunawayEs, RunawayArgs, RunawayArms, HasB, HasEs, HasArgs,
        HasArms,
         LabB, LabEs, LabArgs, LabArms, Known;
    match e
    case Leaf =>
    case Use(_, _) =>
    case Ops(_, es) => TameMayEs(es, q, tail);
    case BlockE(b) => TameMayB(b, q, tail);
    case If(_, c, t, el) =>
      TameMayE(c, q, tail);
      TameMayB(t, q, tail);
      if el.Some? { TameMayE(el.value, q, tail); }
    case Match(s, arms) =>
      TameMayE(s, q, tail);
      TameMayArms(arms, q, tail);
    case While(l, c, b) =>
      TameMayE(c, q, tail);
      TameMayB(b, InsideLoop(q, l), tail + [l]);
    case For(l, _, it, b) =>
      TameMayE(it, q, tail);
      TameMayB(b, InsideLoop(q, l), tail + [l]);
    case Loop(l, b) => TameMayB(b, InsideLoop(q, l), tail + [l]);
    case Break(l, v) =>
      TameMayE(v, q, tail);
      if !q.role.Top? { KnownTail(q, tail, l); }
    case Continue(l) => if !q.role.Top? { KnownTail(q, tail, l); }
    case Return(v) => TameMayE(v, q, tail);
    case Question(x) => TameMayE(x, q, tail);
    case Closure(x) => TameMayE(x, q, tail);
    case MethodCall(o, args) =>
      TameMayE(o, q, tail);
      TameMayArgs(args, q, tail);
  }

  lemma {:induction false} TameMayEs(es: Exprs, q: Part, tail: seq<Label>)
    requires TameEs(es, !q.role.Top?, tail) && !q.role.Err? && Suffix(tail, q.own)
    ensures MayEs(es, q, false)
  {
    hide TameE, RunawayE, HasE, LabE, Known;
    if es.ECons? {
      TameMayE(es.head, q, tail);
      TameMayEs(es.tail, q, tail);
    }
  }

  lemma {:induction false} TameMayArgs(args: Args, q: Part, tail: seq<Label>)
    requires TameArgs(args, !q.role.Top?, tail) && !q.role.Err? && Suffix(tail, q.own)
    ensures MayArgs(args, q, false)
  {
    hide TameE, RunawayE, HasE, LabE, Known;
    if args.ACons? {
      TameMayE(args.value, q, tail);
      TameMayArgs(args.tail, q, tail);
    }
  }

  lemma {:induction false} TameMayArms(arms: Arms, q: Part, tail: seq<Label>)
    requires TameArms(arms, !q.role.Top?, tail) && !q.role.Err? && Suffix(tail, q.own)
    ensures MayArms(arms, q, false)
  {
    hide TameE, RunawayE, HasE, LabE, Known;
    if arms.Arm? {
      TameMayE(arms.guard, q, tail);
      TameMayE(arms.body, q, tail);
      TameMayArms(arms.others, q, tail);
    }
  }

  lemma {:induction false} TameMayB(b: Block, q: Part, tail: seq<Label>)
    requires TameB(b, !q.role.Top?, tail) && !q.role.Err? && Suffix(tail, q.own)
    ensures MayB(b, q, false)
    decreases b, 0
  {
    hide TameE, RunawayE, HasE, LabE, Known, BadDefer, BadErr;
    match b
    case Done(e) => TameMayE(e, q, tail);
    case Then(s, rest) =>
      TameMayB(rest, q, tail);
      TameMayS(s, q, tail);
  }

  /** The statement, apart from what it registers. */
  ghost predicate SafeS(s: Stmt, ls: seq<Label>) {
    match s
    case Let(_, v) => !RunawayE(v, false, ls)
    case LetUninit(_) => true
    case LetElse(_, v, d) => !RunawayE(v, false, ls) && !RunawayB(d, false, ls)
    case Defer(d) => !BadDefer(d, ls)
    case ErrDefer(d) => !BadErr(d, ls)
    case Assign(t, v) => !RunawayE(v, false, ls) && !RunawayE(t, false, ls)
    case ExprStmt(e) => !RunawayE(e, false, ls)
  }

  lemma {:induction false} TameMayS(s: Stmt, q: Part, tail: seq<Label>)
    requires TameS(s, !q.role.Top?, tail) && !q.role.Err? && Suffix(tail, q.own)
    ensures QuietS(s, q) && SafeS(s, q.around + q.own)
  {
    hide TameE, TameB, RunawayE, RunawayB, HasE, HasB, LabE, LabB, Known, BadDefer, BadErr;
    match s
    case Let(_, v) => TameMayE(v, q, tail);
    case LetUninit(_) =>
    case LetElse(_, v, o) =>
      TameMayE(v, q, tail);
      TameMayB(o, q, tail);
    case Defer(d) => TameRegistered(d, q);
    case ErrDefer(d) => TameRegistered(d, q);
    case Assign(t, v) =>
      TameMayE(v, q, tail);
      TameMayE(t, q, tail);
    case ExprStmt(e) => TameMayE(e, q, tail);
  }

  /** A tame cleanup body stays in its own loops. */
  lemma {:induction false} TameRegistered(d: Block, q: Part)
    requires TameB(d, true, [])
    ensures MayB(d, q.(role := Body), false)
    ensures !BadDefer(d, q.around + q.own) && !BadErr(d, q.around + q.own)
    decreases d, 1
  {
    hide TameB, RunawayB, HasB, LabB, Known;
    var ls := q.around + q.own;
    TameMayB(d, q.(role := Body), []);
    TameMayB(d, Part(Body, ls, []), []);
    assert ls + [] == ls;
    forall l | Known(ls, l)
      ensures !HasB(d, Leaves(l), [])
    {
    }
    if ls != [] {
      KnownSome(ls, None);
      forall i | 0 <= i < |ls|
        ensures !HasB(d, Leaves(ls[i]), [])
      {
        KnownAt(ls, i);
      }
    }
  }

  /** The bodies that the builder's methods are proved for are among those on which it ends. */
  lemma TameEnds(body: Block)
    requires TameB(body, false, [])
    ensures LabB(body, false, []) && !RunawayB(body, false, [])
    ensures EndsB(body, [], [], 2 * SizeB(body))
  {
    hide TameB, RunawayB, LabB, EndsB, HasB;
    var q := Part(Top, [], []);
    TameMayB(body, q, []);
    assert q.around + q.own == [];
    EndsExactly(body);
  }
}
