/** The syntax tree of `src/ast.rs` as the walks over whole bodies see it: forms
    that every walk treats alike share a constructor, and an absent part is Lit. */
module TreeSyntax {
  import opened Options

  type Label = Option<string>

  datatype Expr =
    | Lit                                                 // literals, paths, `self`, `Self`, placeholders
    | Name(n: string)
    | Project(base: Expr, field: nat)                   // `o.f`, `o.0`
    | Index(base: Expr, index: Expr)
    | MethodCall(base: Expr, name: string, args: Exprs)
    | OptionalChain(base: Expr, args: Exprs)
    | Call(callee: Expr, args: Exprs)
    | Group(form: Form, items: Exprs)
    | Jump(kind: JumpKind, target: Label, value: Expr)
    | BlockE(catch: Catch, body: Block)
    | If(pat: Option<seq<string>>, cond: Expr, thenBranch: Block, elseBranch: Expr)    // `if let` has a pattern
    | Match(scrutinee: Expr, arms: Arms)
    | Loop(lbl: Label, loop: LoopKind, head: Expr, body: Block)
    | Scoped(scope: Scope, heads: Exprs, body: Block)
    | Closure(params: seq<string>, code: Expr)

  /** Operators, literals with parts, and `?`. Lazy: `&&`, `||` and `??`, which may
      leave operands out. Sparse: repeat and map literals and ranges. */
  datatype Form = Plain | Lazy | Question | Sparse

  datatype JumpKind = Return | Break | Continue

  /** What a block stops: errors if it is a `try` block, and breaks to its label. */
  datatype Catch = Nothing | Errors | Breaks(at: string)

  datatype LoopKind = Forever | While | WhileLet(names: seq<string>) | For(names: seq<string>)

  datatype Scope = Lock | Providers

  datatype Exprs = ENil | ECons(head: Expr, tail: Exprs)

  datatype Arms = NoArm | Arm(names: seq<string>, guard: Expr, body: Expr, others: Arms)

  datatype Block = Final(e: Expr) | Then(first: Stmt, rest: Block)

  datatype Stmt =
    | Let(names: seq<string>, value: Expr)
    | LetUninit(name: string)
    | LetElse(names: seq<string>, value: Expr, otherwise: Block)
    | Defer(onError: bool, body: Block)
    | Assign(compound: bool, target: Expr, value: Expr)
    | MultiAssign(targets: Exprs, values: Exprs)
    | Do(e: Expr)

  /** The name at the root of a place expression. */
  function AssignTargetRoot(target: Expr): Option<string> {
    match target
    case Name(n) => Some(n)
    case Project(o, _) => AssignTargetRoot(o)
    case Index(o, _) => AssignTargetRoot(o)
    case _ => None
  }

  /** The built-in methods that change their receiver in place. */
  predicate IsMutatingCollectionMethod(name: string) {
    name in {
      "push", "pop", "push_back", "push_front", "pop_back", "pop_front", "push_str",
      "insert", "insert_str", "remove", "swap_remove", "clear", "truncate",
      "reserve", "reserve_exact", "reverse", "sort", "sort_by", "sort_by_key", "swap",
      "extend", "retain", "dedup", "split_off", "resize", "append", "fill"}
  }

  // ── Occurrences ──────────────────────────────────────────────────

  /** The ways a name can occur, and the things that can happen to a variable. */
  datatype Kind =
    | Taken          // as a bare value
    | Through        // under a projection, or as a receiver
    | Scrutinised    // as the head of a `match`, `if let` or `while let`
    | Lent           // as a call argument that the callee borrows
    | Captured       // in a closure
    | Replaced       // as a whole assignment target
    | Altered        // at the root of a longer target, or of the receiver of a mutating method

  /** Which call arguments are borrowed: of a callee, at a position. */
  type Modes = (Expr, nat) -> bool

  /** How an argument is passed; operands of other forms have no callee. */
  function Passed(m: Modes, callee: Option<Expr>, i: nat): Kind {
    if callee.Some? && m(callee.value, i) then Lent else Taken
  }

  /** How the head of a form with or without a pattern is looked at. */
  function HeadKind(hasPattern: bool): Kind {
    if hasPattern then Scrutinised else Taken
  }

  /** Whether a name of `ns` occurs at all. */
  predicate Mentions(ns: set<string>, e: Expr) {
    match e
    case Lit => false
    case Name(n) => n in ns
    case Project(o, _) => Mentions(ns, o)
    case Index(o, i) => Mentions(ns, o) || Mentions(ns, i)
    case MethodCall(o, _, args) => Mentions(ns, o) || MentionsL(ns, args)
    case OptionalChain(o, args) => Mentions(ns, o) || MentionsL(ns, args)
    case Call(c, args) => Mentions(ns, c) || MentionsL(ns, args)
    case Group(_, items) => MentionsL(ns, items)
    case Jump(_, _, v) => Mentions(ns, v)
    case BlockE(_, b) => MentionsB(ns, b)
    case If(_, c, t, f) => Mentions(ns, c) || MentionsB(ns, t) || Mentions(ns, f)
    case Match(s, arms) => Mentions(ns, s) || MentionsArms(ns, arms)
    case Loop(_, _, h, b) => Mentions(ns, h) || MentionsB(ns, b)
    case Scoped(_, hs, b) => MentionsL(ns, hs) || MentionsB(ns, b)
    case Closure(_, c) => Mentions(ns, c)
  }

  predicate MentionsL(ns: set<string>, es: Exprs) {
    match es case ENil => false case ECons(h, t) => Mentions(ns, h) || MentionsL(ns, t)
  }

  predicate MentionsArms(ns: set<string>, arms: Arms) {
    match arms
    case NoArm => false
    case Arm(_, g, b, others) => Mentions(ns, g) || Mentions(ns, b) || MentionsArms(ns, others)
  }

  predicate MentionsB(ns: set<string>, b: Block) {
    match b case Final(e) => Mentions(ns, e) case Then(s, rest) => MentionsS(ns, s) || MentionsB(ns, rest)
  }

  predicate MentionsS(ns: set<string>, s: Stmt) {
    match s
    case Let(_, v) => Mentions(ns, v)
    case LetUninit(_) => false
    case LetElse(_, v, b) => Mentions(ns, v) || MentionsB(ns, b)
    case Defer(_, b) => MentionsB(ns, b)
    case Assign(_, t, v) => Mentions(ns, t) || Mentions(ns, v)
    case MultiAssign(ts, vs) => MentionsL(ns, ts) || MentionsL(ns, vs)
    case Do(e) => Mentions(ns, e)
  }

  /** A place rooted at a name of `ns` is not altered unless `ks` lets it be. */
  predicate Spares(ns: set<string>, ks: set<Kind>, place: Expr) {
    var r := AssignTargetRoot(place);
    r.Some? && r.value in ns ==> Altered in ks
  }

  /** The names of `ns` occur in an expression in the ways of `ks` only; standing alone
      it occurs in the way `how`. */
  predicate Only(m: Modes, ns: set<string>, ks: set<Kind>, how: Kind, e: Expr)
    decreases e, 0
  {
    match e
    case Lit => true
    case Name(n) => n in ns ==> how in ks
    case Project(o, _) => Only(m, ns, ks, Through, o)
    case Index(o, i) => Only(m, ns, ks, Through, o) && Only(m, ns, ks, Taken, i)
    case MethodCall(o, name, args) =>
      Only(m, ns, ks, Through, o) && OnlyL(m, ns, ks, None, 0, args) &&
          (IsMutatingCollectionMethod(name) ==> Spares(ns, ks, o))
    case OptionalChain(o, args) => Only(m, ns, ks, Through, o) && OnlyL(m, ns, ks, None, 0, args)
    case Call(c, args) => Only(m, ns, ks, Taken, c) && OnlyL(m, ns, ks, Some(c), 0, args)
    case Group(_, items) => OnlyL(m, ns, ks, None, 0, items)
    case Jump(_, _, v) => Only(m, ns, ks, Taken, v)
    case BlockE(_, b) => OnlyB(m, ns, ks, b)
    case If(p, c, t, f) => Only(m, ns, ks, HeadKind(p.Some?), c) && OnlyB(m, ns, ks, t) && Only(m, ns, ks, Taken, f)
    case Match(s, arms) => Only(m, ns, ks, Scrutinised, s) && OnlyArms(m, ns, ks, arms)
    case Loop(_, l, h, b) => Only(m, ns, ks, HeadKind(l.WhileLet?), h) && OnlyB(m, ns, ks, b)
    case Scoped(_, hs, b) => OnlyL(m, ns, ks, None, 0, hs) && OnlyB(m, ns, ks, b)
    case Closure(_, c) => (Mentions(ns, c) ==> Captured in ks) && Only(m, ns, ks, Taken, c)
  }

  predicate OnlyL(m: Modes, ns: set<string>, ks: set<Kind>, callee: Option<Expr>, i: nat, es: Exprs)
    decreases es
  {
    match es
    case ENil => true
    case ECons(h, t) => Only(m, ns, ks, Passed(m, callee, i), h) && OnlyL(m, ns, ks, callee, i + 1, t)
  }

  predicate OnlyArms(m: Modes, ns: set<string>, ks: set<Kind>, arms: Arms)
    decreases arms
  {
    match arms
    case NoArm => true
    case Arm(_, g, b, others) => Only(m, ns, ks, Taken, g) && Only(m, ns, ks, Taken, b) && OnlyArms(m, ns, ks, others)
  }

  predicate OnlyB(m: Modes, ns: set<string>, ks: set<Kind>, b: Block)
    decreases b
  {
    match b case Final(e) => Only(m, ns, ks, Taken, e) case Then(s, rest) =>
        OnlyS(m, ns, ks, s) && OnlyB(m, ns, ks, rest)
  }

  predicate OnlyS(m: Modes, ns: set<string>, ks: set<Kind>, s: Stmt)
    decreases s
  {
    match s
    case Let(_, v) => Only(m, ns, ks, Taken, v)
    case LetUninit(_) => true
    case LetElse(_, v, b) => Only(m, ns, ks, Taken, v) && OnlyB(m, ns, ks, b)
    case Defer(_, b) => OnlyB(m, ns, ks, b)
    case Assign(_, t, v) => OnlyTarget(m, ns, ks, t) && Only(m, ns, ks, Taken, v)
    case MultiAssign(ts, vs) => OnlyTargets(m, ns, ks, ts) && OnlyL(m, ns, ks, None, 0, vs)
    case Do(e) => Only(m, ns, ks, Taken, e)
  }

  predicate OnlyTarget(m: Modes, ns: set<string>, ks: set<Kind>, t: Expr)
    decreases t, 1
  {
    Only(m, ns, ks, Replaced, t) && (t.Name? || Spares(ns, ks, t))
  }

  predicate OnlyTargets(m: Modes, ns: set<string>, ks: set<Kind>, ts: Exprs)
    decreases ts
  {
    match ts case ENil => true case ECons(h, t) => OnlyTarget(m, ns, ks, h) && OnlyTargets(m, ns, ks, t)
  }

  /** One step of `Only`. */
  lemma OnlyIs(m: Modes, ns: set<string>, ks: set<Kind>, how: Kind, e: Expr)
    requires !e.Name?
    ensures Only(m, ns, ks, how, e) == match e
      case Lit => true
      case Project(o, _) => Only(m, ns, ks, Through, o)
      case Index(o, i) => Only(m, ns, ks, Through, o) && Only(m, ns, ks, Taken, i)
      case MethodCall(o, name, args) =>
        Only(m, ns, ks, Through, o) && OnlyL(m, ns, ks, None, 0, args) &&
            (IsMutatingCollectionMethod(name) ==> Spares(ns, ks, o))
      case OptionalChain(o, args) => Only(m, ns, ks, Through, o) && OnlyL(m, ns, ks, None, 0, args)
      case Call(c, args) => Only(m, ns, ks, Taken, c) && OnlyL(m, ns, ks, Some(c), 0, args)
      case Group(_, items) => OnlyL(m, ns, ks, None, 0, items)
      case Jump(_, _, v) => Only(m, ns, ks, Taken, v)
      case BlockE(_, b) => OnlyB(m, ns, ks, b)
      case If(p, c, t, f) => Only(m, ns, ks, HeadKind(p.Some?), c) && OnlyB(m, ns, ks, t) && Only(m, ns, ks, Taken, f)
      case Match(s, arms) => Only(m, ns, ks, Scrutinised, s) && OnlyArms(m, ns, ks, arms)
      case Loop(_, l, h, b) => Only(m, ns, ks, HeadKind(l.WhileLet?), h) && OnlyB(m, ns, ks, b)
      case Scoped(_, hs, b) => OnlyL(m, ns, ks, None, 0, hs) && OnlyB(m, ns, ks, b)
      case Closure(_, c) => (Mentions(ns, c) ==> Captured in ks) && Only(m, ns, ks, Taken, c)
  {
    hide OnlyL, OnlyB, OnlyArms, Mentions, IsMutatingCollectionMethod, Spares;
  }

  // ── Fewer names ──────────────────────────────────────────────────

  lemma {:induction false} FewerMentions(ns: set<string>, ms: set<string>, e: Expr)
    requires ms <= ns && Mentions(ms, e)
    ensures Mentions(ns, e)
  {
    match e
    case Name(_) =>
    case Project(o, _) => FewerMentions(ns, ms, o);
    case Index(o, i) => if Mentions(ms, o) { FewerMentions(ns, ms, o); } else { FewerMentions(ns, ms, i); }
    case MethodCall(o, _, args) =>
      if Mentions(ms, o) { FewerMentions(ns, ms, o); } else { FewerMentionsL(ns, ms, args); }
    case OptionalChain(o, args) =>
      if Mentions(ms, o) { FewerMentions(ns, ms, o); } else { FewerMentionsL(ns, ms, args); }
    case Call(c, args) => if Mentions(ms, c) { FewerMentions(ns, ms, c); } else { FewerMentionsL(ns, ms, args); }
    case Group(_, items) => FewerMentionsL(ns, ms, items);
    case Jump(_, _, v) => FewerMentions(ns, ms, v);
    case BlockE(_, b) => FewerMentionsB(ns, ms, b);
    case If(_, c, t, f) =>
      if Mentions(ms, c) { FewerMentions(ns, ms, c); }
      if MentionsB(ms, t) { FewerMentionsB(ns, ms, t); }
      if Mentions(ms, f) { FewerMentions(ns, ms, f); }
    case Match(s, arms) => if Mentions(ms, s) { FewerMentions(ns, ms, s); } else { FewerMentionsArms(ns, ms, arms); }
    case Loop(_, _, h, b) => if Mentions(ms, h) { FewerMentions(ns, ms, h); } else { FewerMentionsB(ns, ms, b); }
    case Scoped(_, hs, b) => if MentionsL(ms, hs) { FewerMentionsL(ns, ms, hs); } else { FewerMentionsB(ns, ms, b); }
    case Closure(_, c) => FewerMentions(ns, ms, c);
  }

  lemma {:induction false} FewerMentionsL(ns: set<string>, ms: set<string>, es: Exprs)
    requires ms <= ns && MentionsL(ms, es)
    ensures MentionsL(ns, es)
  {
    if Mentions(ms, es.head) { FewerMentions(ns, ms, es.head); } else { FewerMentionsL(ns, ms, es.tail); }
  }

  lemma {:induction false} FewerMentionsArms(ns: set<string>, ms: set<string>, arms: Arms)
    requires ms <= ns && MentionsArms(ms, arms)
    ensures MentionsArms(ns, arms)
  {
    if Mentions(ms, arms.guard) { FewerMentions(ns, ms, arms.guard); }
    if Mentions(ms, arms.body) { FewerMentions(ns, ms, arms.body); }
    if MentionsArms(ms, arms.others) { FewerMentionsArms(ns, ms, arms.others); }
  }

  lemma {:induction false} FewerMentionsB(ns: set<string>, ms: set<string>, b: Block)
    requires ms <= ns && MentionsB(ms, b)
    ensures MentionsB(ns, b)
  {
    match b
    case Final(e) => FewerMentions(ns, ms, e);
    case Then(s, rest) => if MentionsS(ms, s) { FewerMentionsS(ns, ms, s); } else { FewerMentionsB(ns, ms, rest); }
  }

  lemma {:induction false} FewerMentionsS(ns: set<string>, ms: set<string>, s: Stmt)
    requires ms <= ns && MentionsS(ms, s)
    ensures MentionsS(ns, s)
  {
    match s
    case Let(_, v) => FewerMentions(ns, ms, v);
    case LetElse(_, v, b) => if Mentions(ms, v) { FewerMentions(ns, ms, v); } else { FewerMentionsB(ns, ms, b); }
    case Defer(_, b) => FewerMentionsB(ns, ms, b);
    case Assign(_, t, v) => if Mentions(ms, t) { FewerMentions(ns, ms, t); } else { FewerMentions(ns, ms, v); }
    case MultiAssign(ts, vs) =>
      if MentionsL(ms, ts) { FewerMentionsL(ns, ms, ts); } else { FewerMentionsL(ns, ms, vs); }
    case Do(e) => FewerMentions(ns, ms, e);
  }

  lemma {:induction false} Fewer(m: Modes, ns: set<string>, ms: set<string>, ks: set<Kind>, how: Kind, e: Expr)
    requires ms <= ns && Only(m, ns, ks, how, e)
    ensures Only(m, ms, ks, how, e)
    decreases e
  {
    match e
    case Lit =>
    case Name(_) =>
    case Project(o, _) => Fewer(m, ns, ms, ks, Through, o);
    case Index(o, i) => Fewer(m, ns, ms, ks, Through, o); Fewer(m, ns, ms, ks, Taken, i);
    case MethodCall(o, _, args) => Fewer(m, ns, ms, ks, Through, o); FewerL(m, ns, ms, ks, None, 0, args);
    case OptionalChain(o, args) => Fewer(m, ns, ms, ks, Through, o); FewerL(m, ns, ms, ks, None, 0, args);
    case Call(c, args) => Fewer(m, ns, ms, ks, Taken, c); FewerL(m, ns, ms, ks, Some(c), 0, args);
    case Group(_, items) => FewerL(m, ns, ms, ks, None, 0, items);
    case Jump(_, _, v) => Fewer(m, ns, ms, ks, Taken, v);
    case BlockE(_, b) => FewerB(m, ns, ms, ks, b);
    case If(p, c, t, f) => Fewer(m, ns, ms, ks, HeadKind(p.Some?), c); FewerB(m, ns, ms, ks, t);
        Fewer(m, ns, ms, ks, Taken, f);
    case Match(s, arms) => Fewer(m, ns, ms, ks, Scrutinised, s); FewerArms(m, ns, ms, ks, arms);
    case Loop(_, l, h, b) => Fewer(m, ns, ms, ks, HeadKind(l.WhileLet?), h); FewerB(m, ns, ms, ks, b);
    case Scoped(_, hs, b) => FewerL(m, ns, ms, ks, None, 0, hs); FewerB(m, ns, ms, ks, b);
    case Closure(_, c) =>
      Fewer(m, ns, ms, ks, Taken, c);
      if Mentions(ms, c) { FewerMentions(ns, ms, c); }
  }

  lemma {:induction false} FewerL(m: Modes, ns: set<string>, ms: set<string>, ks: set<Kind>, callee: Option<Expr>,
          i: nat, es: Exprs)
    requires ms <= ns && OnlyL(m, ns, ks, callee, i, es)
    ensures OnlyL(m, ms, ks, callee, i, es)
    decreases es
  {
    if es.ECons? {
      Fewer(m, ns, ms, ks, Passed(m, callee, i), es.head);
      FewerL(m, ns, ms, ks, callee, i + 1, es.tail);
    }
  }

  lemma {:induction false} FewerArms(m: Modes, ns: set<string>, ms: set<string>, ks: set<Kind>, arms: Arms)
    requires ms <= ns && OnlyArms(m, ns, ks, arms)
    ensures OnlyArms(m, ms, ks, arms)
    decreases arms
  {
    if arms.Arm? {
      Fewer(m, ns, ms, ks, Taken, arms.guard);
      Fewer(m, ns, ms, ks, Taken, arms.body);
      FewerArms(m, ns, ms, ks, arms.others);
    }
  }

  lemma {:induction false} FewerB(m: Modes, ns: set<string>, ms: set<string>, ks: set<Kind>, b: Block)
    requires ms <= ns && OnlyB(m, ns, ks, b)
    ensures OnlyB(m, ms, ks, b)
    decreases b
  {
    match b
    case Final(e) => Fewer(m, ns, ms, ks, Taken, e);
    case Then(s, rest) => FewerS(m, ns, ms, ks, s); FewerB(m, ns, ms, ks, rest);
  }

  lemma {:induction false} FewerS(m: Modes, ns: set<string>, ms: set<string>, ks: set<Kind>, s: Stmt)
    requires ms <= ns && OnlyS(m, ns, ks, s)
    ensures OnlyS(m, ms, ks, s)
    decreases s
  {
    match s
    case Let(_, v) => Fewer(m, ns, ms, ks, Taken, v);
    case LetUninit(_) =>
    case LetElse(_, v, b) => Fewer(m, ns, ms, ks, Taken, v); FewerB(m, ns, ms, ks, b);
    case Defer(_, b) => FewerB(m, ns, ms, ks, b);
    case Assign(_, t, v) => Fewer(m, ns, ms, ks, Replaced, t); Fewer(m, ns, ms, ks, Taken, v);
    case MultiAssign(ts, vs) => FewerTargets(m, ns, ms, ks, ts); FewerL(m, ns, ms, ks, None, 0, vs);
    case Do(e) => Fewer(m, ns, ms, ks, Taken, e);
  }

  lemma {:induction false} FewerTargets(m: Modes, ns: set<string>, ms: set<string>, ks: set<Kind>, ts: Exprs)
    requires ms <= ns && OnlyTargets(m, ns, ks, ts)
    ensures OnlyTargets(m, ms, ks, ts)
    decreases ts
  {
    if ts.ECons? {
      Fewer(m, ns, ms, ks, Replaced, ts.head);
      FewerTargets(m, ns, ms, ks, ts.tail);
    }
  }

  // ── Parts ────────────────────────────────────────────────────────

  /** The expression `p` stands somewhere in `e`, closures included. */
  predicate Within(p: Expr, e: Expr) {
    p == e || match e
    case Lit => false
    case Name(_) => false
    case Project(o, _) => Within(p, o)
    case Index(o, i) => Within(p, o) || Within(p, i)
    case MethodCall(o, _, args) => Within(p, o) || WithinL(p, args)
    case OptionalChain(o, args) => Within(p, o) || WithinL(p, args)
    case Call(c, args) => Within(p, c) || WithinL(p, args)
    case Group(_, items) => WithinL(p, items)
    case Jump(_, _, v) => Within(p, v)
    case BlockE(_, b) => WithinB(p, b)
    case If(_, c, t, f) => Within(p, c) || WithinB(p, t) || Within(p, f)
    case Match(s, arms) => Within(p, s) || WithinArms(p, arms)
    case Loop(_, _, h, b) => Within(p, h) || WithinB(p, b)
    case Scoped(_, hs, b) => WithinL(p, hs) || WithinB(p, b)
    case Closure(_, c) => Within(p, c)
  }

  predicate WithinL(p: Expr, es: Exprs) {
    match es case ENil => false case ECons(h, t) => Within(p, h) || WithinL(p, t)
  }

  predicate WithinArms(p: Expr, arms: Arms) {
    match arms
    case NoArm => false
    case Arm(_, g, b, others) => Within(p, g) || Within(p, b) || WithinArms(p, others)
  }

  predicate WithinB(p: Expr, b: Block) {
    match b
    case Final(e) => Within(p, e)
    case Then(s, rest) => WithinS(p, s) || WithinB(p, rest)
  }

  predicate WithinS(p: Expr, s: Stmt) {
    match s
    case Let(_, v) => Within(p, v)
    case LetUninit(_) => false
    case LetElse(_, v, b) => Within(p, v) || WithinB(p, b)
    case Defer(_, b) => WithinB(p, b)
    case Assign(_, t, v) => Within(p, t) || Within(p, v)
    case MultiAssign(ts, vs) => WithinL(p, ts) || WithinL(p, vs)
    case Do(e) => Within(p, e)
  }

  /** An expression that breaks the rule in any position. */
  ghost predicate Violates(m: Modes, ns: set<string>, ks: set<Kind>, p: Expr) {
    !p.Name? && forall how :: !Only(m, ns, ks, how, p)
  }

  /** One step of `Within`. */
  lemma WithinIs(p: Expr, e: Expr)
    requires p != e
    ensures Within(p, e) == match e
      case Lit => false
      case Name(_) => false
      case Project(o, _) => Within(p, o)
      case Index(o, i) => Within(p, o) || Within(p, i)
      case MethodCall(o, _, args) => Within(p, o) || WithinL(p, args)
      case OptionalChain(o, args) => Within(p, o) || WithinL(p, args)
      case Call(c, args) => Within(p, c) || WithinL(p, args)
      case Group(_, items) => WithinL(p, items)
      case Jump(_, _, v) => Within(p, v)
      case BlockE(_, b) => WithinB(p, b)
      case If(_, c, t, f) => Within(p, c) || WithinB(p, t) || Within(p, f)
      case Match(s, arms) => Within(p, s) || WithinArms(p, arms)
      case Loop(_, _, h, b) => Within(p, h) || WithinB(p, b)
      case Scoped(_, hs, b) => WithinL(p, hs) || WithinB(p, b)
      case Closure(_, c) => Within(p, c)
  {
    hide WithinL, WithinB, WithinArms;
  }

  lemma {:induction false} PartBreaks(m: Modes, ns: set<string>, ks: set<Kind>, p: Expr, how: Kind, e: Expr)
    requires Within(p, e) && Violates(m, ns, ks, p)
    ensures !Only(m, ns, ks, how, e)
    decreases e, 0
  {
    hide Violates, Only, OnlyL, OnlyB, OnlyArms, Within, WithinL, WithinB, WithinArms, Mentions, Spares,
        IsMutatingCollectionMethod;
    if p == e {
      ViolatesItself(m, ns, ks, p, how);
    } else {
      WithinIs(p, e);
      if !e.Name? {
        OnlyIs(m, ns, ks, how, e);
      }
      match e
      case Project(o, _) => PartBreaks(m, ns, ks, p, Through, o);
      case Index(o, i) =>
        if Within(p, o) { PartBreaks(m, ns, ks, p, Through, o); } else { PartBreaks(m, ns, ks, p, Taken, i); }
      case MethodCall(o, _, args) =>
        if Within(p, o) { PartBreaks(m, ns, ks, p, Through, o); } else { PartBreaksL(m, ns, ks, p, None, 0, args); }
      case OptionalChain(o, args) =>
        if Within(p, o) { PartBreaks(m, ns, ks, p, Through, o); } else { PartBreaksL(m, ns, ks, p, None, 0, args); }
      case Call(c, args) =>
        if Within(p, c) { PartBreaks(m, ns, ks, p, Taken, c); } else { PartBreaksL(m, ns, ks, p, Some(c), 0, args); }
      case Group(_, items) => PartBreaksL(m, ns, ks, p, None, 0, items);
      case Jump(_, _, v) => PartBreaks(m, ns, ks, p, Taken, v);
      case BlockE(_, b) => PartBreaksB(m, ns, ks, p, b);
      case If(pt, c, t, f) =>
        if Within(p, c) { PartBreaks(m, ns, ks, p, HeadKind(pt.Some?), c); }
        else if WithinB(p, t) { PartBreaksB(m, ns, ks, p, t); }
        else { PartBreaks(m, ns, ks, p, Taken, f); }
      case Match(s, arms) =>
        if Within(p, s) { PartBreaks(m, ns, ks, p, Scrutinised, s); } else { PartBreaksArms(m, ns, ks, p, arms); }
      case Loop(_, l, h, b) =>
        if Within(p, h) { PartBreaks(m, ns, ks, p, HeadKind(l.WhileLet?), h); } else { PartBreaksB(m, ns, ks, p, b); }
      case Scoped(_, hs, b) =>
        if WithinL(p, hs) { PartBreaksL(m, ns, ks, p, None, 0, hs); } else { PartBreaksB(m, ns, ks, p, b); }
      case Closure(_, c) => PartBreaks(m, ns, ks, p, Taken, c);
    }
  }

  lemma ViolatesItself(m: Modes, ns: set<string>, ks: set<Kind>, p: Expr, how: Kind)
    requires Violates(m, ns, ks, p)
    ensures !Only(m, ns, ks, how, p)
  {
    hide Only;
  }

  lemma {:induction false} PartBreaksL(m: Modes, ns: set<string>, ks: set<Kind>, p: Expr, callee: Option<Expr>, i: nat,
          es: Exprs)
    requires WithinL(p, es) && Violates(m, ns, ks, p)
    ensures !OnlyL(m, ns, ks, callee, i, es)
    decreases es, 0
  {
    hide Violates, Only, Within;
    if Within(p, es.head) {
      PartBreaks(m, ns, ks, p, Passed(m, callee, i), es.head);
    } else {
      PartBreaksL(m, ns, ks, p, callee, i + 1, es.tail);
    }
  }

  lemma {:induction false} PartBreaksArms(m: Modes, ns: set<string>, ks: set<Kind>, p: Expr, arms: Arms)
    requires WithinArms(p, arms) && Violates(m, ns, ks, p)
    ensures !OnlyArms(m, ns, ks, arms)
    decreases arms, 0
  {
    hide Violates, Only, Within;
    if Within(p, arms.guard) {
      PartBreaks(m, ns, ks, p, Taken, arms.guard);
    } else if Within(p, arms.body) {
      PartBreaks(m, ns, ks, p, Taken, arms.body);
    } else {
      PartBreaksArms(m, ns, ks, p, arms.others);
    }
  }

  lemma {:induction false} PartBreaksB(m: Modes, ns: set<string>, ks: set<Kind>, p: Expr, b: Block)
    requires WithinB(p, b) && Violates(m, ns, ks, p)
    ensures !OnlyB(m, ns, ks, b)
    decreases b, 0
  {
    hide Violates, Only, OnlyS, Within, WithinS;
    match b
    case Final(e) => PartBreaks(m, ns, ks, p, Taken, e);
    case Then(s, rest) => if WithinS(p, s) { PartBreaksS(m, ns, ks, p, s); } else { PartBreaksB(m, ns, ks, p, rest); }
  }

  lemma {:induction false} PartBreaksS(m: Modes, ns: set<string>, ks: set<Kind>, p: Expr, s: Stmt)
    requires WithinS(p, s) && Violates(m, ns, ks, p)
    ensures !OnlyS(m, ns, ks, s)
    decreases s, 0
  {
    hide Violates, Only, Within, Spares;
    match s
    case Let(_, v) => PartBreaks(m, ns, ks, p, Taken, v);
    case LetElse(_, v, b) =>
      if Within(p, v) { PartBreaks(m, ns, ks, p, Taken, v); } else { PartBreaksB(m, ns, ks, p, b); }
    case Defer(_, b) => PartBreaksB(m, ns, ks, p, b);
    case Assign(_, t, v) =>
      if Within(p, t) { PartBreaks(m, ns, ks, p, Replaced, t); } else { PartBreaks(m, ns, ks, p, Taken, v); }
    case MultiAssign(ts, vs) =>
      if WithinL(p, ts) { PartBreaksTargets(m, ns, ks, p, ts); } else { PartBreaksL(m, ns, ks, p, None, 0, vs); }
    case Do(e) => PartBreaks(m, ns, ks, p, Taken, e);
  }

  lemma {:induction false} PartBreaksTargets(m: Modes, ns: set<string>, ks: set<Kind>, p: Expr, ts: Exprs)
    requires WithinL(p, ts) && Violates(m, ns, ks, p)
    ensures !OnlyTargets(m, ns, ks, ts)
    decreases ts, 0
  {
    hide Violates, Only, Within, Spares;
    if Within(p, ts.head) {
      PartBreaks(m, ns, ks, p, Replaced, ts.head);
    } else {
      PartBreaksTargets(m, ns, ks, p, ts.tail);
    }
  }

  function Nth(es: Exprs, k: nat): Option<Expr> {
    match es case ENil => None case ECons(h, t) => if k == 0 then Some(h) else Nth(t, k - 1)
  }

  lemma {:induction false} NthBare(m: Modes, ns: set<string>, ks: set<Kind>, callee: Option<Expr>, i: nat, es: Exprs,
          k: nat)
    requires Nth(es, k).Some? && Nth(es, k).value.Name? && Nth(es, k).value.n in ns
    requires !(callee.Some? && m(callee.value, i + k)) && Taken !in ks
    ensures !OnlyL(m, ns, ks, callee, i, es)
    decreases es
  {
    if k > 0 {
      NthBare(m, ns, ks, callee, i + 1, es.tail, k - 1);
    }
  }
}
