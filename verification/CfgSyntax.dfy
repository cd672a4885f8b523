/** The part of the syntax tree that the control-flow graph builder of
    `src/cfg.rs` distinguishes. Forms that the builder treats alike share a
    constructor; lists are cons lists, so that proofs follow them. */
module CfgSyntax {
  import opened Options
  import opened Places

  type Label = Option<string>

  /** The names a pattern introduces, in binding order, and the pattern's span. */
  datatype Pat = Pat(names: seq<string>, span: nat)

  datatype Expr =
    | Leaf                                     // literals, paths and the catch-all: no use, no edge
    | Use(name: string, span: nat)             // identifiers and `self`
    | Ops(strict: bool, args: Exprs)           // operands lowered left to right; `strict` is false for
                                               // `&&`, `||`, `??` and `?.`, which are lowered alike
    | BlockE(body: Block)                      // plain, par, seq, unsafe, try and lock blocks
    | If(pat: Pat, cond: Expr, thenBranch: Block, elseBranch: Option<Expr>)  // `if` has no names, `if let` may
    | Match(scrutinee: Expr, arms: Arms)
    | While(lbl: Label, cond: Expr, body: Block)                 // `while` and `while let`
    | For(lbl: Label, pat: Pat, iterable: Expr, body: Block)
    | Loop(lbl: Label, body: Block)
    | Break(lbl: Label, value: Expr)         // an absent value is Leaf
    | Continue(lbl: Label)
    | Return(value: Expr)
    | Question(inner: Expr)
    | Closure(code: Expr)
    | MethodCall(receiver: Expr, actuals: Args)

  datatype Exprs = ENil | ECons(head: Expr, tail: Exprs)

  /** Call arguments; the span decides whether an argument is a sink argument. */
  datatype Args = ANil | ACons(span: nat, value: Expr, tail: Args)

  /** Match arms; an absent guard is Leaf. */
  datatype Arms = NoArm | Arm(pat: Pat, guard: Expr, body: Expr, others: Arms)

  /** What is left of a block: a final expression (Leaf if there is none), or
      a statement and what follows it. */
  datatype Block = Done(final: Expr) | Then(first: Stmt, rest: Block)

  datatype Stmt =
    | Let(pat: Pat, value: Expr)
    | LetUninit(name: string)
    | LetElse(pat: Pat, value: Expr, diverge: Block)
    | Defer(body: Block)
    | ErrDefer(body: Block)
    | Assign(target: Expr, value: Expr)        // plain and compound assignment
    | ExprStmt(e: Expr)

  // ── Uses ─────────────────────────────────────────────────────────

  datatype UseKind = Read | Consume | Reassign | Define
  datatype Origin = Direct | ClosureCapture | ContainerStore

  datatype SuffixKind = Cu | InArm | InFor | Sh

  /** The rename suffix of a recorded binding: none, or `@cuN`, `@armN`, `@forN`, `@shN`. */
  datatype Suffix = Bare | Tag(kind: SuffixKind, id: nat)

  /** A binding identity: the source name and its rename suffix. */
  datatype Ident = Ident(name: string, suffix: Suffix)

  datatype UseSite = UseSite(binding: Ident, kind: UseKind, span: nat, origin: Origin, place: PlacePath)

  /** What the use classifier says about spans; absent spans have the default. */
  datatype Classification = Classification(
    kinds: map<nat, UseKind>, sinks: set<nat>, origins: map<nat, Origin>, places: map<nat, PlacePath>)

  /** The use an identifier leaf records, before renaming. */
  function LeafUse(cl: Classification, name: string, span: nat): UseSite {
    UseSite(Ident(name, Bare),
            if span in cl.kinds then cl.kinds[span] else Read,
            span,
            if span in cl.origins then cl.origins[span] else Direct,
            if span in cl.places then cl.places[span] else [])
  }

  /** The marker recorded where a pattern introduces a name, before renaming. */
  function DefineUse(name: string, span: nat): UseSite {
    UseSite(Ident(name, Bare), Define, span, Direct, [])
  }

  /** A use with its rename suffix removed. */
  function Erase(u: UseSite): UseSite {
    u.(binding := Ident(u.binding.name, Bare))
  }

  /** The expression a statement evaluates, when it evaluates one and then
      only introduces names. An assignment evaluates its value first. */
  function StmtExpr(s: Stmt): Expr
    requires !s.LetElse? && !s.Defer? && !s.ErrDefer?
  {
    match s
    case Let(_, value) => value
    case LetUninit(_) => Leaf
    case Assign(target, value) => Ops(true, ECons(value, ECons(target, ENil)))
    case ExprStmt(e) => e
  }

  // ── Sizes ────────────────────────────────────────────────────────

  function SizeE(e: Expr): (k: nat)
    ensures k >= 1
  {
    match e
    case Leaf => 1
    case Use(_, _) => 1
    case Ops(_, es) => 1 + SizeEs(es)
    case BlockE(b) => 1 + SizeB(b)
    case If(_, c, t, el) => 2 + SizeE(c) + SizeB(t) + (match el case None => 0 case Some(x) => SizeE(x))
    case Match(s, arms) => 1 + SizeE(s) + SizeArms(arms)
    case While(_, c, b) => 3 + SizeE(c) + SizeB(b)
    case For(_, _, it, b) => 5 + SizeE(it) + SizeB(b)
    case Loop(_, b) => 3 + SizeB(b)
    case Break(_, v) => 1 + SizeE(v)
    case Continue(_) => 1
    case Return(v) => 1 + SizeE(v)
    case Question(x) => 1 + SizeE(x)
    case Closure(x) => 1 + SizeE(x)
    case MethodCall(o, args) => 1 + SizeE(o) + SizeArgs(args)
  }

  function SizeEs(es: Exprs): nat {
    match es
    case ENil => 0
    case ECons(h, t) => 1 + SizeE(h) + SizeEs(t)
  }

  function SizeArgs(args: Args): nat {
    match args
    case ANil => 0
    case ACons(_, v, t) => 1 + SizeE(v) + SizeArgs(t)
  }

  function SizeArms(arms: Arms): nat {
    match arms
    case NoArm => 0
    case Arm(_, g, b, others) => 3 + SizeE(g) + SizeE(b) + SizeArms(others)
  }

  function SizeB(b: Block): (k: nat)
    ensures k >= 1
  {
    match b
    case Done(e) => 1 + SizeE(e)
    case Then(s, rest) => 1 + SizeS(s) + SizeB(rest)
  }

  function SizeS(s: Stmt): (k: nat)
    ensures k >= 1
  {
    match s
    case Let(_, v) => 1 + SizeE(v)
    case LetUninit(_) => 1
    case LetElse(_, v, b) => 1 + SizeE(v) + SizeB(b)
    case Defer(b) => 1 + SizeB(b)
    case ErrDefer(b) => 1 + SizeB(b)
    case Assign(t, v) => 3 + SizeE(t) + SizeE(v)
    case ExprStmt(e) => 1 + SizeE(e)
  }

  lemma StmtExprSize(s: Stmt)
    requires !s.LetElse? && !s.Defer? && !s.ErrDefer?
    ensures SizeE(StmtExpr(s)) <= SizeS(s)
  {
    match s
    case Assign(t, v) =>
      var last := ECons(t, ENil);
      assert SizeEs(last) == 1 + SizeE(t) + SizeEs(ENil);
      assert SizeEs(ECons(v, last)) == 1 + SizeE(v) + SizeEs(last);
    case _ =>
  }
}
