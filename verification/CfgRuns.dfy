/** What a function body does when it runs, as far as its uses are concerned:
    evaluation by structure, in which an exit leaves one scope after the other
    and each scope runs its own cleanup on the way. */
module CfgRuns {
  import opened Options
  import opened CfgSyntax
  import opened CfgLowering

  /** A finished evaluation. `Finally` is a scope: its statements, then the
      cleanup bodies it ran. `Caught` is a loop body left by a `break` or
      `continue` of that loop. */
  datatype Run =
    | Emit(uses: seq<UseSite>)
    | Exit(o: Outcome)
    | Seq(first: Run, second: Run)
    | Finally(inner: Run, cleanup: Runs)
    | Caught(inner: Run)

  datatype Runs = RNil | RCons(head: Run, tail: Runs)

  function Out(t: Run): Outcome {
    match t
    case Emit(_) => Normal
    case Exit(o) => o
    case Seq(_, b) => Out(b)
    case Finally(a, _) => Out(a)
    case Caught(_) => Normal
  }

  function Trace(t: Run): seq<UseSite> {
    match t
    case Emit(us) => us
    case Exit(_) => []
    case Seq(a, b) => Trace(a) + Trace(b)
    case Finally(a, cs) => Trace(a) + TraceAll(cs)
    case Caught(a) => Trace(a)
  }

  function TraceAll(ts: Runs): seq<UseSite> {
    match ts
    case RNil => []
    case RCons(h, t) => Trace(h) + TraceAll(t)
  }

  function RunSize(t: Run): (k: nat)
    ensures k >= 1
  {
    match t
    case Emit(_) => 1
    case Exit(_) => 1
    case Seq(a, b) => 1 + RunSize(a) + RunSize(b)
    case Finally(a, cs) => 1 + RunSize(a) + RunsSize(cs)
    case Caught(a) => 1 + RunSize(a)
  }

  function RunsSize(ts: Runs): nat {
    match ts
    case RNil => 0
    case RCons(h, t) => 1 + RunSize(h) + RunsSize(t)
  }

  function Append(a: Runs, b: Runs): Runs {
    match a
    case RNil => b
    case RCons(h, t) => RCons(h, Append(t, b))
  }

  lemma TraceAppend(a: Runs, b: Runs)
    ensures TraceAll(Append(a, b)) == TraceAll(a) + TraceAll(b)
  {
    match a
    case RNil =>
    case RCons(h, t) => TraceAppend(t, b);
  }

  lemma SizeAppend(a: Runs, b: Runs)
    ensures RunsSize(Append(a, b)) == RunsSize(a) + RunsSize(b)
  {
  }

  function Defines(names: seq<string>, span: nat): (us: seq<UseSite>)
    ensures |us| == |names|
  {
    if names == [] then [] else [DefineUse(names[0], span)] + Defines(names[1..], span)
  }

  /** Method arguments as operands, when none of them is a sink argument. */
  function Operands(args: Args): (es: Exprs)
    ensures SizeEs(es) == SizeArgs(args)
  {
    match args
    case ANil => ENil
    case ACons(_, v, t) => ECons(v, Operands(t))
  }

  /** A loop catches an exit without a label, or with its own. */
  predicate Catches(lbl: Label, o: Outcome) {
    (o.Brk? || o.Cont?) && (o.lbl == None || o.lbl == lbl)
  }

  function IntroUses(s: Stmt): seq<UseSite> {
    match s
    case Let(pat, _) => Defines(pat.names, pat.span)
    case _ => []
  }

  predicate RunE(cl: Classification, e: Expr, t: Run)
    decreases t, SizeE(e), 1
  {
    match e
    case Leaf => t == Emit([])
    case Use(name, span) => t == Emit([LeafUse(cl, name, span)])
    case Ops(strict, es) => strict && RunEs(cl, es, t)
    case BlockE(b) => RunB(cl, b, [], t)
    case If(pat, cond, th, el) =>
      (RunE(cl, cond, t) && Out(t) != Normal) ||
      (t.Seq? && RunE(cl, cond, t.first) && Out(t.first) == Normal &&
       ((t.second.Seq? && t.second.first == Emit(Defines(pat.names, pat.span)) && RunB(cl, th, [], t.second.second)) ||
        (match el case None => t.second == Emit([]) case Some(x) => RunE(cl, x, t.second))))
    case Match(s, arms) =>
      (RunE(cl, s, t) && Out(t) != Normal) ||
      (t.Seq? && RunE(cl, s, t.first) && Out(t.first) == Normal &&
       (if arms.NoArm? then t.second == Emit([]) else RunArms(cl, arms, t.second)))
    case While(l, cond, b) => RunLoop(cl, Some(cond), None, l, b, t)
    case For(l, pat, it, b) =>
      (RunE(cl, it, t) && Out(t) != Normal) ||
      (t.Seq? && RunE(cl, it, t.first) && Out(t.first) == Normal && RunLoop(cl, Some(Leaf), Some(pat), l, b, t.second))
    case Loop(l, b) => RunLoop(cl, None, None, l, b, t)
    case Break(l, v) => RunExit(cl, v, Brk(l), t)
    case Continue(l) => t == Exit(Cont(l))
    case Return(v) => RunExit(cl, v, Ret, t)
    case Question(x) =>
      RunE(cl, x, t) || (t.Seq? && RunE(cl, x, t.first) && Out(t.first) == Normal && t.second == Exit(Ret))
    case Closure(_) => false
    case MethodCall(o, args) => !HasSink(args, cl) && RunEs(cl, ECons(o, Operands(args)), t)
  }

  /** Evaluates `v` and then leaves. */
  predicate RunExit(cl: Classification, v: Expr, o: Outcome, t: Run)
    decreases t, SizeE(v), 2
  {
    (RunE(cl, v, t) && Out(t) != Normal) ||
    (t.Seq? && RunE(cl, v, t.first) && Out(t.first) == Normal && t.second == Exit(o))
  }

  predicate RunEs(cl: Classification, es: Exprs, t: Run)
    decreases t, SizeEs(es), 0
  {
    match es
    case ENil => t == Emit([])
    case ECons(h, tl) =>
      (RunE(cl, h, t) && Out(t) != Normal) ||
      (t.Seq? && RunE(cl, h, t.first) && Out(t.first) == Normal && RunEs(cl, tl, t.second))
  }

  predicate RunArms(cl: Classification, arms: Arms, t: Run)
    decreases t, SizeArms(arms), 0
  {
    match arms
    case NoArm => false
    case Arm(pat, guard, body, others) =>
      (guard == Leaf && t.Seq? && t.first == Emit(Defines(pat.names, pat.span)) && RunE(cl, body, t.second)) ||
          RunArms(cl, others, t)
  }

  /** One or more rounds of a loop: the condition, if there is one, and then
      the body; or the condition fails. */
  predicate RunLoop(cl: Classification, cond: Option<Expr>, pat: Option<Pat>, lbl: Label, b: Block, t: Run)
    decreases t, CondSize(cond) + SizeB(b), 3
  {
    match cond
    case None => RunRound(cl, cond, pat, lbl, b, t)
    case Some(e) =>
      (RunE(cl, e, t) && Out(t) != Normal) ||
      (t.Seq? && RunE(cl, e, t.first) && Out(t.first) == Normal &&
       (t.second == Emit([]) ||
        (t.second.Seq? && t.second.first == Emit(LoopDefines(pat)) &&
            RunRound(cl, cond, pat, lbl, b, t.second.second))))
  }

  function LoopDefines(pat: Option<Pat>): seq<UseSite> {
    match pat case None => [] case Some(p) => Defines(p.names, p.span)
  }

  /** The body; unless it leaves the loop, further rounds. */
  predicate RunRound(cl: Classification, cond: Option<Expr>, pat: Option<Pat>, lbl: Label, b: Block, t: Run)
    decreases t, CondSize(cond) + SizeB(b), 2
  {
    || (RunB(cl, b, [], t) && Out(t) != Normal && !Catches(lbl, Out(t)))
    || (t.Caught? && RunB(cl, b, [], t.inner) && Out(t.inner).Brk? && Catches(lbl, Out(t.inner)))
    || (t.Seq? && t.first.Caught? && RunB(cl, b, [], t.first.inner)
        && (Out(t.first.inner) == Normal || (Out(t.first.inner).Cont? && Catches(lbl, Out(t.first.inner))))
        && RunLoop(cl, cond, pat, lbl, b, t.second))
  }

  /** The rest of a scope that has registered `items`. However it is left, it
      runs the items registered by then; errdefers only on a return. */
  predicate RunB(cl: Classification, b: Block, items: seq<Item>, t: Run)
    decreases t, SizeB(b), 0
  {
    match b
    case Done(e) => t.Finally? && RunE(cl, e, t.inner) &&
        RunBodies(cl, FrameBodies(items, Out(t.inner) == Ret), t.cleanup)
    case Then(s, rest) =>
      match s
      case Defer(body) => RunB(cl, rest, Push(items, Item(false, body)), t)
      case ErrDefer(body) => RunB(cl, rest, Push(items, Item(true, body)), t)
      case LetElse(_, v, diverge) =>
        (t.Finally? && RunAside(cl, v, diverge, t.inner) && Out(t.inner) != Normal
           && RunBodies(cl, FrameBodies(items, Out(t.inner) == Ret), t.cleanup)) ||
        (t.Seq? && RunE(cl, v, t.first) && Out(t.first) == Normal && RunB(cl, rest, items, t.second))
      case _ =>
        (t.Finally? && RunS(cl, s, t.inner) && Out(t.inner) != Normal
           && RunBodies(cl, FrameBodies(items, Out(t.inner) == Ret), t.cleanup)) ||
        (t.Seq? && RunS(cl, s, t.first) && Out(t.first) == Normal && RunB(cl, rest, items, t.second))
  }

  /** The value of a let-else and, if it does not match, the diverging block. */
  predicate RunAside(cl: Classification, v: Expr, diverge: Block, t: Run)
    decreases t, SizeE(v) + SizeB(diverge), 2
  {
    RunE(cl, v, t) || (t.Seq? && RunE(cl, v, t.first) && Out(t.first) == Normal && RunB(cl, diverge, [], t.second))
  }

  predicate RunS(cl: Classification, s: Stmt, t: Run)
    requires IsPlain(s)
    decreases t, SizeS(s), 2
  {
    StmtExprSize(s);
    (RunE(cl, StmtExpr(s), t) && Out(t) != Normal) ||
    (t.Seq? && RunE(cl, StmtExpr(s), t.first) && Out(t.first) == Normal && t.second == Emit(IntroUses(s)))
  }

  /** Cleanup bodies run to their ends, one after the other. */
  predicate RunBodies(cl: Classification, bs: seq<Block>, ts: Runs)
    decreases ts, 0, 0
  {
    match ts
    case RNil => bs == []
    case RCons(h, tl) => bs != [] && RunB(cl, bs[0], [], h) && Out(h) == Normal && RunBodies(cl, bs[1..], tl)
  }

  lemma {:induction false} RunBodiesAppend(cl: Classification, a: seq<Block>, b: seq<Block>, ta: Runs, tb: Runs)
    requires RunBodies(cl, a, ta) && RunBodies(cl, b, tb)
    ensures RunBodies(cl, a + b, Append(ta, tb))
    decreases ta
  {
    match ta
    case RNil => assert a + b == b;
    case RCons(h, tl) =>
      assert (a + b)[1..] == a[1..] + b;
      RunBodiesAppend(cl, a[1..], b, tl, tb);
  }

  /** A run of a whole function body: it ends at the end of the body, by
      `return` or by a failing `?`. */
  predicate Finishes(cl: Classification, body: Block, t: Run) {
    RunB(cl, body, [], t) && (Out(t) == Normal || Out(t) == Ret)
  }
}
