/** Which variables a body may change: the two walks of `src/ast.rs` over
    assignment targets and over receivers of mutating methods, what they leave out,
    and what any run then leaves unchanged. */
module AssignedRoots {
  import opened Options
  import opened TreeSyntax
  import opened TreeRuns
  import opened TreeSafety

  /** `collect_assigned_roots` and `collect_mut_method_receiver_roots`. */
  datatype Walk = Assigned | Mutated

  function RootSet(place: Expr): set<string> {
    match AssignTargetRoot(place) case None => {} case Some(n) => {n}
  }

  /** The names that a walk collects; `all` makes it descend everywhere. */
  function Roots(k: Walk, all: bool, e: Expr): set<string>
    decreases e
  {
    match e
    case Lit => {}
    case Name(_) => {}
    case Project(o, _) => Roots(k, all, o)
    case Index(o, i) => Roots(k, all, o) + Roots(k, all, i)
    case MethodCall(o, name, args) =>
      (if k.Mutated? && IsMutatingCollectionMethod(name) then RootSet(o) else {}) +
          (Roots(k, all, o) + RootsL(k, all, args))
    case OptionalChain(o, args) => if all || k.Assigned? then Roots(k, all, o) + RootsL(k, all, args) else {}
    case Call(c, args) => Roots(k, all, c) + RootsL(k, all, args)
    case Group(form, items) => if all || k.Assigned? || !form.Sparse? then RootsL(k, all, items) else {}
    case Jump(_, _, v) => if all || k.Assigned? then Roots(k, all, v) else {}
    case BlockE(_, b) => RootsB(k, all, b)
    case If(_, c, t, f) => Roots(k, all, c) + (RootsB(k, all, t) + Roots(k, all, f))
    case Match(s, arms) => Roots(k, all, s) + RootsArms(k, all, arms)
    case Loop(_, _, h, b) => Roots(k, all, h) + RootsB(k, all, b)
    case Scoped(s, hs, b) =>
      if all || s.Lock? then RootsL(k, all, hs) + RootsB(k, all, b) else if k.Assigned? then RootsB(k, all, b) else {}
    case Closure(_, c) => Roots(k, all, c)
  }

  function RootsL(k: Walk, all: bool, es: Exprs): set<string>
    decreases es
  {
    match es case ENil => {} case ECons(h, t) => Roots(k, all, h) + RootsL(k, all, t)
  }

  function RootsArms(k: Walk, all: bool, arms: Arms): set<string>
    decreases arms
  {
    match arms
    case NoArm => {}
    case Arm(_, g, b, others) => Roots(k, all, g) + Roots(k, all, b) + RootsArms(k, all, others)
  }

  function RootsB(k: Walk, all: bool, b: Block): set<string>
    decreases b
  {
    match b case Final(e) => Roots(k, all, e) case Then(s, rest) => RootsS(k, all, s) + RootsB(k, all, rest)
  }

  function RootsS(k: Walk, all: bool, s: Stmt): set<string>
    decreases s
  {
    match s
    case Let(_, v) => Roots(k, all, v)
    case LetUninit(_) => {}
    case LetElse(_, v, b) => Roots(k, all, v) + RootsB(k, all, b)
    case Defer(_, b) => RootsB(k, all, b)
    case Assign(_, t, v) => (if k.Assigned? then RootSet(t) else {}) + (Roots(k, all, t) + Roots(k, all, v))
    case MultiAssign(ts, vs) => if all then TargetRoots(k, ts) + RootsL(k, all, vs) else {}
    case Do(e) => Roots(k, all, e)
  }

  /** What is written by assigning to each target, and inside them. */
  function TargetRoots(k: Walk, ts: Exprs): set<string>
    decreases ts
  {
    match ts
    case ENil => {}
    case ECons(h, t) => (if k.Assigned? then RootSet(h) else {}) + Roots(k, true, h) + TargetRoots(k, t)
  }

  // ── The walks ────────────────────────────────────────────────────

  /** The set that a walk inserts into. */
  class Collector {
    var out: set<string>

    constructor ()
      ensures out == {}
    {
      out := {};
    }

    method Insert(root: Option<string>)
      modifies this
      ensures out == old(out) + (match root case None => {} case Some(n) => {n})
    {
      if root.Some? {
        out := out + {root.value};
      }
    }

    method CollectAssignedRootsExpr(e: Expr)
      modifies this
      ensures out == old(out) + Roots(Assigned, false, e)
      decreases e, 1
    {
      hide RootsL, RootsB, RootsArms;
      match e {
        case Lit =>
        case Name(_) =>
        case Project(o, _) => CollectAssignedRootsExpr(o);
        case Index(o, i) => CollectAssignedRootsExpr(o); CollectAssignedRootsExpr(i);
        case MethodCall(o, _, args) => CollectAssignedRootsExpr(o); CollectAssignedRootsList(args);
        case OptionalChain(o, args) => CollectAssignedRootsExpr(o); CollectAssignedRootsList(args);
        case Call(c, args) => CollectAssignedRootsExpr(c); CollectAssignedRootsList(args);
        case Group(_, items) => CollectAssignedRootsList(items);
        case Jump(_, _, v) => CollectAssignedRootsExpr(v);
        case BlockE(_, b) => CollectAssignedRootsBlock(b);
        case If(_, c, t, f) => CollectAssignedRootsExpr(c); CollectAssignedRootsBlock(t); CollectAssignedRootsExpr(f);
        case Match(s, arms) => CollectAssignedRootsExpr(s); CollectAssignedRootsArms(arms);
        case Loop(_, _, h, b) => CollectAssignedRootsExpr(h); CollectAssignedRootsBlock(b);
        case Scoped(s, hs, b) =>
          if s.Lock? {
            CollectAssignedRootsList(hs);
          }
          CollectAssignedRootsBlock(b);
        case Closure(_, c) => CollectAssignedRootsExpr(c);
      }
    }

    method CollectAssignedRootsList(es: Exprs)
      modifies this
      ensures out == old(out) + RootsL(Assigned, false, es)
      decreases es, 0
    {
      hide Roots;
      var rest := es;
      while rest.ECons?
        invariant out + RootsL(Assigned, false, rest) == old(out) + RootsL(Assigned, false, es)
        invariant rest == es || rest < es
        decreases rest
      {
        CollectAssignedRootsExpr(rest.head);
        rest := rest.tail;
      }
    }

    method CollectAssignedRootsArms(arms: Arms)
      modifies this
      ensures out == old(out) + RootsArms(Assigned, false, arms)
      decreases arms, 0
    {
      hide Roots;
      var rest := arms;
      while rest.Arm?
        invariant out + RootsArms(Assigned, false, rest) == old(out) + RootsArms(Assigned, false, arms)
        invariant rest == arms || rest < arms
        decreases rest
      {
        CollectAssignedRootsExpr(rest.guard);
        CollectAssignedRootsExpr(rest.body);
        rest := rest.others;
      }
    }

    method CollectAssignedRootsBlock(b: Block)
      modifies this
      ensures out == old(out) + RootsB(Assigned, false, b)
      decreases b, 0
    {
      hide Roots, RootsS;
      var rest := b;
      while rest.Then?
        invariant out + RootsB(Assigned, false, rest) == old(out) + RootsB(Assigned, false, b)
        invariant rest == b || rest < b
        decreases rest
      {
        CollectAssignedRootsStmt(rest.first);
        rest := rest.rest;
      }
      CollectAssignedRootsExpr(rest.e);
    }

    method CollectAssignedRootsStmt(s: Stmt)
      modifies this
      ensures out == old(out) + RootsS(Assigned, false, s)
      decreases s, 0
    {
      hide Roots, RootsL, RootsB, AssignTargetRoot;
      match s
      case Let(_, v) => CollectAssignedRootsExpr(v);
      case LetUninit(_) =>
      case LetElse(_, v, b) => CollectAssignedRootsExpr(v); CollectAssignedRootsBlock(b);
      case Defer(_, b) => CollectAssignedRootsBlock(b);
      case Assign(_, t, v) =>
        Insert(AssignTargetRoot(t));
        CollectAssignedRootsExpr(t);
        CollectAssignedRootsExpr(v);
      case MultiAssign(_, _) =>
      case Do(e) => CollectAssignedRootsExpr(e);
    }

    method CollectMutMethodReceiverRootsExpr(e: Expr)
      modifies this
      ensures out == old(out) + Roots(Mutated, false, e)
      decreases e, 1
    {
      hide RootsL, RootsB, RootsArms, IsMutatingCollectionMethod, AssignTargetRoot;
      match e {
        case MethodCall(o, name, args) =>
          if IsMutatingCollectionMethod(name) {
            Insert(AssignTargetRoot(o));
          }
          CollectMutMethodReceiverRootsExpr(o);
          CollectMutMethodReceiverRootsList(args);
        case Call(c, args) => CollectMutMethodReceiverRootsExpr(c); CollectMutMethodReceiverRootsList(args);
        case Project(o, _) => CollectMutMethodReceiverRootsExpr(o);
        case Index(o, i) => CollectMutMethodReceiverRootsExpr(o); CollectMutMethodReceiverRootsExpr(i);
        case BlockE(_, b) => CollectMutMethodReceiverRootsBlock(b);
        case If(_, c, t, f) =>
          CollectMutMethodReceiverRootsExpr(c);
          CollectMutMethodReceiverRootsBlock(t);
          CollectMutMethodReceiverRootsExpr(f);
        case Loop(_, _, h, b) => CollectMutMethodReceiverRootsExpr(h); CollectMutMethodReceiverRootsBlock(b);
        case Match(s, arms) => CollectMutMethodReceiverRootsExpr(s); CollectMutMethodReceiverRootsArms(arms);
        case Closure(_, c) => CollectMutMethodReceiverRootsExpr(c);
        case Scoped(Lock, hs, b) => CollectMutMethodReceiverRootsList(hs); CollectMutMethodReceiverRootsBlock(b);
        case Group(form, items) =>
          if !form.Sparse? {
            CollectMutMethodReceiverRootsList(items);
          }
        case _ =>
      }
    }

    method CollectMutMethodReceiverRootsList(es: Exprs)
      modifies this
      ensures out == old(out) + RootsL(Mutated, false, es)
      decreases es, 0
    {
      hide Roots;
      var rest := es;
      while rest.ECons?
        invariant out + RootsL(Mutated, false, rest) == old(out) + RootsL(Mutated, false, es)
        invariant rest == es || rest < es
        decreases rest
      {
        CollectMutMethodReceiverRootsExpr(rest.head);
        rest := rest.tail;
      }
    }

    method CollectMutMethodReceiverRootsArms(arms: Arms)
      modifies this
      ensures out == old(out) + RootsArms(Mutated, false, arms)
      decreases arms, 0
    {
      hide Roots;
      var rest := arms;
      while rest.Arm?
        invariant out + RootsArms(Mutated, false, rest) == old(out) + RootsArms(Mutated, false, arms)
        invariant rest == arms || rest < arms
        decreases rest
      {
        CollectMutMethodReceiverRootsExpr(rest.guard);
        CollectMutMethodReceiverRootsExpr(rest.body);
        rest := rest.others;
      }
    }

    method CollectMutMethodReceiverRootsBlock(b: Block)
      modifies this
      ensures out == old(out) + RootsB(Mutated, false, b)
      decreases b, 0
    {
      hide Roots, RootsS;
      var rest := b;
      while rest.Then?
        invariant out + RootsB(Mutated, false, rest) == old(out) + RootsB(Mutated, false, b)
        invariant rest == b || rest < b
        decreases rest
      {
        CollectMutMethodReceiverRootsStmt(rest.first);
        rest := rest.rest;
      }
      CollectMutMethodReceiverRootsExpr(rest.e);
    }

    method CollectMutMethodReceiverRootsStmt(s: Stmt)
      modifies this
      ensures out == old(out) + RootsS(Mutated, false, s)
      decreases s, 0
    {
      hide Roots, RootsL, RootsB;
      match s
      case Let(_, v) => CollectMutMethodReceiverRootsExpr(v);
      case LetUninit(_) =>
      case LetElse(_, v, b) => CollectMutMethodReceiverRootsExpr(v); CollectMutMethodReceiverRootsBlock(b);
      case Defer(_, b) => CollectMutMethodReceiverRootsBlock(b);
      case Assign(_, t, v) => CollectMutMethodReceiverRootsExpr(t); CollectMutMethodReceiverRootsExpr(v);
      case MultiAssign(_, _) =>
      case Do(e) => CollectMutMethodReceiverRootsExpr(e);
    }
  }

  // ── What the walks leave out ─────────────────────────────────────

  /** The names written in the parts that a walk does not enter. */
  function Missed(k: Walk, e: Expr): set<string>
    decreases e
  {
    match e
    case Lit => {}
    case Name(_) => {}
    case Project(o, _) => Missed(k, o)
    case Index(o, i) => Missed(k, o) + Missed(k, i)
    case MethodCall(o, _, args) => Missed(k, o) + MissedL(k, args)
    case OptionalChain(o, args) => if k.Assigned? then
        Missed(k, o) + MissedL(k, args) else Roots(k, true, o) + RootsL(k, true, args)
    case Call(c, args) => Missed(k, c) + MissedL(k, args)
    case Group(form, items) => if k.Assigned? || !form.Sparse? then MissedL(k, items) else RootsL(k, true, items)
    case Jump(_, _, v) => if k.Assigned? then Missed(k, v) else Roots(k, true, v)
    case BlockE(_, b) => MissedB(k, b)
    case If(_, c, t, f) => Missed(k, c) + (MissedB(k, t) + Missed(k, f))
    case Match(s, arms) => Missed(k, s) + MissedArms(k, arms)
    case Loop(_, _, h, b) => Missed(k, h) + MissedB(k, b)
    case Scoped(s, hs, b) =>
      if s.Lock? then MissedL(k, hs) + MissedB(k, b)
      else RootsL(k, true, hs) + (if k.Assigned? then MissedB(k, b) else RootsB(k, true, b))
    case Closure(_, c) => Missed(k, c)
  }

  function MissedL(k: Walk, es: Exprs): set<string>
    decreases es
  {
    match es case ENil => {} case ECons(h, t) => Missed(k, h) + MissedL(k, t)
  }

  function MissedArms(k: Walk, arms: Arms): set<string>
    decreases arms
  {
    match arms
    case NoArm => {}
    case Arm(_, g, b, others) => Missed(k, g) + Missed(k, b) + MissedArms(k, others)
  }

  function MissedB(k: Walk, b: Block): set<string>
    decreases b
  {
    match b case Final(e) => Missed(k, e) case Then(s, rest) => MissedS(k, s) + MissedB(k, rest)
  }

  function MissedS(k: Walk, s: Stmt): set<string>
    decreases s
  {
    match s
    case Let(_, v) => Missed(k, v)
    case LetUninit(_) => {}
    case LetElse(_, v, b) => Missed(k, v) + MissedB(k, b)
    case Defer(_, b) => MissedB(k, b)
    case Assign(_, t, v) => Missed(k, t) + Missed(k, v)
    case MultiAssign(ts, vs) => TargetRoots(k, ts) + RootsL(k, true, vs)
    case Do(e) => Missed(k, e)
  }

  lemma {:induction false} FoundOrMissed(k: Walk, e: Expr)
    ensures Roots(k, true, e) == Roots(k, false, e) + Missed(k, e)
    decreases e
  {
    hide RootsL, RootsB, RootsArms, MissedL, MissedB, MissedArms, IsMutatingCollectionMethod, RootSet;
    match e
    case Lit =>
    case Name(_) =>
    case Project(o, _) => FoundOrMissed(k, o);
    case Index(o, i) => FoundOrMissed(k, o); FoundOrMissed(k, i);
    case MethodCall(o, _, args) => FoundOrMissed(k, o); FoundOrMissedL(k, args);
    case OptionalChain(o, args) => FoundOrMissed(k, o); FoundOrMissedL(k, args);
    case Call(c, args) => FoundOrMissed(k, c); FoundOrMissedL(k, args);
    case Group(_, items) => FoundOrMissedL(k, items);
    case Jump(_, _, v) => FoundOrMissed(k, v);
    case BlockE(_, b) => FoundOrMissedB(k, b);
    case If(_, c, t, f) => FoundOrMissed(k, c); FoundOrMissedB(k, t); FoundOrMissed(k, f);
    case Match(s, arms) => FoundOrMissed(k, s); FoundOrMissedArms(k, arms);
    case Loop(_, _, h, b) => FoundOrMissed(k, h); FoundOrMissedB(k, b);
    case Scoped(_, hs, b) => FoundOrMissedL(k, hs); FoundOrMissedB(k, b);
    case Closure(_, c) => FoundOrMissed(k, c);
  }

  lemma {:induction false} FoundOrMissedL(k: Walk, es: Exprs)
    ensures RootsL(k, true, es) == RootsL(k, false, es) + MissedL(k, es)
    decreases es
  {
    hide Roots, Missed;
    if es.ECons? {
      FoundOrMissed(k, es.head);
      FoundOrMissedL(k, es.tail);
    }
  }

  lemma {:induction false} FoundOrMissedArms(k: Walk, arms: Arms)
    ensures RootsArms(k, true, arms) == RootsArms(k, false, arms) + MissedArms(k, arms)
    decreases arms
  {
    hide Roots, Missed;
    if arms.Arm? {
      FoundOrMissed(k, arms.guard);
      FoundOrMissed(k, arms.body);
      FoundOrMissedArms(k, arms.others);
    }
  }

  lemma {:induction false} FoundOrMissedB(k: Walk, b: Block)
    ensures RootsB(k, true, b) == RootsB(k, false, b) + MissedB(k, b)
    decreases b
  {
    hide Roots, Missed, RootsS, MissedS;
    match b
    case Final(e) => FoundOrMissed(k, e);
    case Then(s, rest) => FoundOrMissedS(k, s); FoundOrMissedB(k, rest);
  }

  lemma {:induction false} FoundOrMissedS(k: Walk, s: Stmt)
    ensures RootsS(k, true, s) == RootsS(k, false, s) + MissedS(k, s)
    decreases s
  {
    hide Roots, Missed, RootsL, RootsB, MissedL, MissedB, RootSet;
    match s
    case Let(_, v) => FoundOrMissed(k, v);
    case LetUninit(_) =>
    case LetElse(_, v, b) => FoundOrMissed(k, v); FoundOrMissedB(k, b);
    case Defer(_, b) => FoundOrMissedB(k, b);
    case Assign(_, t, v) => FoundOrMissed(k, t); FoundOrMissed(k, v);
    case MultiAssign(_, _) =>
    case Do(e) => FoundOrMissed(k, e);
  }

  // ── Written names ────────────────────────────────────────────────

  /** Everything but a write. */
  function Quiet(): set<Kind> {
    {Taken, Through, Scrutinised, Lent, Captured}
  }

  /** A name in some target, or in the receiver of some mutating method. */
  predicate Written(x: string, e: Expr) {
    x in Roots(Assigned, true, e) || x in Roots(Mutated, true, e)
  }

  predicate WrittenL(x: string, es: Exprs) {
    x in RootsL(Assigned, true, es) || x in RootsL(Mutated, true, es)
  }

  predicate WrittenArms(x: string, arms: Arms) {
    x in RootsArms(Assigned, true, arms) || x in RootsArms(Mutated, true, arms)
  }

  predicate WrittenB(x: string, b: Block) {
    x in RootsB(Assigned, true, b) || x in RootsB(Mutated, true, b)
  }

  predicate WrittenS(x: string, s: Stmt) {
    x in RootsS(Assigned, true, s) || x in RootsS(Mutated, true, s)
  }

  predicate WrittenTargets(x: string, ts: Exprs) {
    x in TargetRoots(Assigned, ts) || x in TargetRoots(Mutated, ts)
  }

  /** One step of `Written`. */
  lemma WrittenIs(x: string, e: Expr)
    ensures Written(x, e) <==> match e
      case Lit => false
      case Name(_) => false
      case Project(o, _) => Written(x, o)
      case Index(o, i) => Written(x, o) || Written(x, i)
      case MethodCall(o, name, args) =>
        (IsMutatingCollectionMethod(name) && x in RootSet(o)) || Written(x, o) || WrittenL(x, args)
      case OptionalChain(o, args) => Written(x, o) || WrittenL(x, args)
      case Call(c, args) => Written(x, c) || WrittenL(x, args)
      case Group(_, items) => WrittenL(x, items)
      case Jump(_, _, v) => Written(x, v)
      case BlockE(_, b) => WrittenB(x, b)
      case If(_, c, t, f) => Written(x, c) || WrittenB(x, t) || Written(x, f)
      case Match(s, arms) => Written(x, s) || WrittenArms(x, arms)
      case Loop(_, _, h, b) => Written(x, h) || WrittenB(x, b)
      case Scoped(_, hs, b) => WrittenL(x, hs) || WrittenB(x, b)
      case Closure(_, c) => Written(x, c)
  {
    hide RootsL, RootsB, RootsArms, RootSet, IsMutatingCollectionMethod;
  }

  lemma QuietAre(how: Kind)
    ensures how in Quiet() <==> how != Replaced && how != Altered
  {
  }

  lemma RootSetIs(x: string, place: Expr)
    ensures x in RootSet(place) <==> !Spares({x}, Quiet(), place)
  {
    hide AssignTargetRoot;
  }

  /** The names collected without omissions are exactly those that occur as written. */
  lemma {:induction false} QuietExactly(m: Modes, x: string, how: Kind, e: Expr)
    requires how in Quiet() || !e.Name?
    ensures Only(m, {x}, Quiet(), how, e) <==> !Written(x, e)
    decreases e, 0
  {
    hide Only, OnlyL, OnlyB, OnlyArms, Written, WrittenL, WrittenB, WrittenArms, IsMutatingCollectionMethod, RootSet,
        Spares, Quiet, Mentions;
    WrittenIs(x, e);
    QuietAre(Taken);
    QuietAre(Through);
    QuietAre(Scrutinised);
    QuietAre(Captured);
    if e.Name? {
      NameQuiet(m, x, how, e);
    } else {
      OnlyIs(m, {x}, Quiet(), how, e);
    }
    match e
    case Lit =>
    case Name(_) =>
    case Project(o, _) => QuietExactly(m, x, Through, o);
    case Index(o, i) => QuietExactly(m, x, Through, o); QuietExactly(m, x, Taken, i);
    case MethodCall(o, _, args) => QuietExactly(m, x, Through, o); QuietExactlyL(m, x, None, 0, args); RootSetIs(x, o);
    case OptionalChain(o, args) => QuietExactly(m, x, Through, o); QuietExactlyL(m, x, None, 0, args);
    case Call(c, args) => QuietExactly(m, x, Taken, c); QuietExactlyL(m, x, Some(c), 0, args);
    case Group(_, items) => QuietExactlyL(m, x, None, 0, items);
    case Jump(_, _, v) => QuietExactly(m, x, Taken, v);
    case BlockE(_, b) => QuietExactlyB(m, x, b);
    case If(p, c, t, f) => QuietExactly(m, x, HeadKind(p.Some?), c); QuietExactlyB(m, x, t);
        QuietExactly(m, x, Taken, f);
    case Match(s, arms) => QuietExactly(m, x, Scrutinised, s); QuietExactlyArms(m, x, arms);
    case Loop(_, l, h, b) => QuietExactly(m, x, HeadKind(l.WhileLet?), h); QuietExactlyB(m, x, b);
    case Scoped(_, hs, b) => QuietExactlyL(m, x, None, 0, hs); QuietExactlyB(m, x, b);
    case Closure(_, c) => QuietExactly(m, x, Taken, c);
  }

  lemma NameQuiet(m: Modes, x: string, how: Kind, e: Expr)
    requires e.Name? && how in Quiet()
    ensures Only(m, {x}, Quiet(), how, e)
  {
  }

  lemma {:induction false} QuietExactlyL(m: Modes, x: string, callee: Option<Expr>, i: nat, es: Exprs)
    ensures OnlyL(m, {x}, Quiet(), callee, i, es) <==> !WrittenL(x, es)
    decreases es
  {
    hide Only, Roots, Quiet;
    QuietAre(Passed(m, callee, i));
    if es.ECons? {
      QuietExactly(m, x, Passed(m, callee, i), es.head);
      QuietExactlyL(m, x, callee, i + 1, es.tail);
    }
  }

  lemma {:induction false} QuietExactlyArms(m: Modes, x: string, arms: Arms)
    ensures OnlyArms(m, {x}, Quiet(), arms) <==> !WrittenArms(x, arms)
    decreases arms
  {
    hide Only, Roots, Quiet;
    QuietAre(Taken);
    if arms.Arm? {
      QuietExactly(m, x, Taken, arms.guard);
      QuietExactly(m, x, Taken, arms.body);
      QuietExactlyArms(m, x, arms.others);
    }
  }

  lemma {:induction false} QuietExactlyB(m: Modes, x: string, b: Block)
    ensures OnlyB(m, {x}, Quiet(), b) <==> !WrittenB(x, b)
    decreases b
  {
    hide Only, OnlyS, Roots, RootsS, Quiet;
    QuietAre(Taken);
    match b
    case Final(e) => QuietExactly(m, x, Taken, e);
    case Then(s, rest) => QuietExactlyS(m, x, s); QuietExactlyB(m, x, rest);
  }

  lemma {:induction false} QuietExactlyS(m: Modes, x: string, s: Stmt)
    ensures OnlyS(m, {x}, Quiet(), s) <==> !WrittenS(x, s)
    decreases s
  {
    hide Only, OnlyL, OnlyB, OnlyTarget, OnlyTargets, Roots, RootsL, RootsB, RootSet, TargetRoots, Quiet;
    QuietAre(Taken);
    match s
    case Let(_, v) => QuietExactly(m, x, Taken, v);
    case LetUninit(_) =>
    case LetElse(_, v, b) => QuietExactly(m, x, Taken, v); QuietExactlyB(m, x, b);
    case Defer(_, b) => QuietExactlyB(m, x, b);
    case Assign(_, t, v) => TargetExactly(m, x, t); QuietExactly(m, x, Taken, v);
    case MultiAssign(ts, vs) => TargetsExactly(m, x, ts); QuietExactlyL(m, x, None, 0, vs);
    case Do(e) => QuietExactly(m, x, Taken, e);
  }

  lemma {:induction false} TargetExactly(m: Modes, x: string, t: Expr)
    ensures OnlyTarget(m, {x}, Quiet(), t) <==> x !in RootSet(t) && !Written(x, t)
    decreases t, 1
  {
    hide Quiet, Mentions;
    QuietAre(Replaced);
    if t.Name? {
      hide OnlyL, OnlyB, OnlyArms, RootsL, RootsB, RootsArms;
    } else {
      hide Only, Written, RootSet, Spares;
      QuietExactly(m, x, Replaced, t);
      RootSetIs(x, t);
    }
  }

  lemma {:induction false} TargetsExactly(m: Modes, x: string, ts: Exprs)
    ensures OnlyTargets(m, {x}, Quiet(), ts) <==> !WrittenTargets(x, ts)
    decreases ts
  {
    hide OnlyTarget, Roots, RootSet, Quiet;
    if ts.ECons? {
      TargetExactly(m, x, ts.head);
      TargetsExactly(m, x, ts.tail);
    }
  }

  // ── Which methods change their receivers ─────────────────────────

  /** A call of the method on a place changes the variable there, with no closure given. */
  ghost predicate Changes(w: World, name: string, slot: nat, path: seq<nat>, vs: seq<Value>, st: State) {
    && (forall i :: 0 <= i < |vs| ==> !vs[i].Fun?) && !ReadAt(At(slot, path), st).Fun? && slot < |st.store|
    && RunMethod(w, name, At(slot, path), vs, st, 0).st.store != st.store
  }

  lemma {:induction false} NoCallbacks(w: World, pool: seq<Value>, ns: seq<nat>, st: State, fuel: nat)
    requires forall i :: 0 <= i < |pool| ==> !pool[i].Fun?
    ensures Callbacks(w, pool, ns, st, fuel) == Ok(Atom(0), st)
    decreases |ns|
  {
    if ns != [] && |pool| != 0 {
      NoCallbacks(w, pool, ns[1..], st, fuel);
    }
  }

  lemma MethodRuns(w: World, name: string, p: Place, vs: seq<Value>, st: State)
    requires (forall i :: 0 <= i < |vs| ==> !vs[i].Fun?) && !ReadAt(p, st).Fun?
    ensures var c := w.chance(st.clock + 2);
      RunMethod(w, name, p, vs, st, 0).st.store == match BuiltIn(name, ReadAt(p, st), vs, c)
        case None => st.store
        case Some(x) => Store(p, false, x, st).store
  {
    hide BuiltIn, Callbacks, Pick;
    var pool := [ReadAt(p, st)] + vs;
    NoCallbacks(w, pool, Roll(w, st).ns, Tick(st), 0);
    assert Opaque(w, pool, st, 0) == Ok(Pick(pool, Roll(w, Tick(st))), Tick(Tick(st)));
    assert ReadAt(p, Tick(Tick(st))) == ReadAt(p, st);
  }

  /** A value with the given one at a path. */
  function Nest(v: Value, path: seq<nat>): Value {
    if path == [] then v else Tup(Filled(path[0] + 1, Nest(v, path[1..])), 0)
  }

  lemma {:induction false} NestHas(v: Value, path: seq<nat>, x: Value)
    ensures Get(Nest(v, path), path) == v && Get(Put(Nest(v, path), path, x), path) == x
    decreases |path|
  {
    if path != [] {
      NestHas(v, path[1..], x);
    }
  }

  /** A collection that each of the writers changes, with these arguments. */
  function Sample(): Value {
    Tup([Atom(1), Atom(2), Atom(2)], 0)
  }

  function Some7(): Value {
    Tup([Atom(7)], 0)
  }

  function SampleArgs(k: Writer): seq<Value> {
    if k.AddAll? then [Some7()] else if k.AddAllAt? then [Atom(0), Some7()] else [Atom(0), Atom(1)]
  }

  lemma SampleChanges(k: Writer)
    ensures !k.Reserve? ==> NewParts(k, Sample().parts, SampleArgs(k), [0, 1]) != Sample().parts
  {
    var s := Sample().parts;
    match k
    case Reverse =>
      assert s[1..] == [Atom(2), Atom(2)] && s[1..][1..] == [Atom(2)] && s[1..][1..][1..] == [];
      assert Reversed(s)[0] == Atom(2);
    case Sort =>
      assert [0, 1][2..] == [];
      assert Rearranged(s, [0, 1])[0] == Atom(2);
    case Keep =>
      assert s[1..] == [Atom(2), Atom(2)] && [0, 1][1..] == [1];
      assert |Retained(s, [0, 1])| == |Retained(s[1..], [1])| <= 2 by { Shorter(s[1..], [1]); }
    case Dedup =>
      assert s[1..] == [Atom(2), Atom(2)] && s[1..][1..] == [Atom(2)];
      assert |Deduped(s)| == 2;
    case Swap => assert NewParts(k, s, SampleArgs(k), [0, 1])[0] == Atom(2);
    case Fill => assert NewParts(k, s, SampleArgs(k), [0, 1])[0] == Atom(0);
    case _ => assert !k.Reserve? ==> |NewParts(k, s, SampleArgs(k), [0, 1])| != |s|;
  }

  lemma {:induction false} Shorter(s: seq<Value>, ns: seq<nat>)
    ensures |Retained(s, ns)| <= |s|
  {
    if s != [] {
      Shorter(s[1..], if ns == [] then [] else ns[1..]);
    }
  }

  lemma SampleWritten(name: string, k: Writer)
    requires WriterOf(name) == Some(k)
    ensures var x := BuiltIn(name, Sample(), SampleArgs(k), Chance(0, [0, 1])); x.Some? && x.value != Sample()
  {
    hide WriterOf, NewParts;
    SampleChanges(k);
  }

  lemma ListedWriter(name: string)
    ensures IsMutatingCollectionMethod(name) <==> WriterOf(name).Some?
  {
  }

  /** For every method and every place: the method is listed if and only if some call of it
      there changes the variable. */
  lemma MutatesExactly(name: string, slot: nat, path: seq<nat>)
    ensures IsMutatingCollectionMethod(name) <==> exists w, vs, st :: Changes(w, name, slot, path, vs, st)
  {
    hide IsMutatingCollectionMethod, WriterOf, BuiltIn, RunMethod, Get, Put, Nest;
    ListedWriter(name);
    if IsMutatingCollectionMethod(name) {
      var k := WriterOf(name).value;
      var w := World(_ => Chance(0, [0, 1]), (_, _) => false);
      var v := Nest(Sample(), path);
      var st := State(Filled(slot + 1, v), 0, {});
      SampleWritten(name, k);
      var x := BuiltIn(name, Sample(), SampleArgs(k), Chance(0, [0, 1])).value;
      NestHas(Sample(), path, x);
      MethodRuns(w, name, At(slot, path), SampleArgs(k), st);
      assert Changes(w, name, slot, path, SampleArgs(k), st);
    } else {
      forall w, vs, st
        ensures !Changes(w, name, slot, path, vs, st)
      {
        if Changes(w, name, slot, path, vs, st) {
          MethodRuns(w, name, At(slot, path), vs, st);
          NoWriter(name, ReadAt(At(slot, path), st), vs, w.chance(st.clock + 2));
        }
      }
    }
  }

  lemma NoWriter(name: string, v: Value, vs: seq<Value>, c: Chance)
    requires WriterOf(name).None?
    ensures BuiltIn(name, v, vs, c).None?
  {
    hide WriterOf, NewParts;
  }

  /** So a receiver's root is collected at a call exactly if some run of the method changes it. */
  lemma ReceiverCollected(o: Expr, name: string, args: Exprs, x: string, slot: nat, path: seq<nat>)
    requires AssignTargetRoot(o) == Some(x) && x !in Roots(Mutated, false, o) + RootsL(Mutated, false, args)
    ensures x in Roots(Mutated, false, MethodCall(o, name, args)) <==>
        exists w, vs, st :: Changes(w, name, slot, path, vs, st)
  {
    hide IsMutatingCollectionMethod, Changes;
    MutatesExactly(name, slot, path);
  }

  // ── What a run leaves alone ──────────────────────────────────────

  /** The names that closure capture takes as mutated. */
  function MutatedRoots(b: Block): set<string> {
    RootsB(Assigned, false, b) + RootsB(Mutated, false, b)
  }

  /** The written names in the parts that the walks do not enter. */
  function Unseen(b: Block): set<string> {
    MissedB(Assigned, b) + MissedB(Mutated, b)
  }

  /** The walks collect exactly the written names if and only if those in the parts
      not entered also occur elsewhere. */
  lemma RootsExactly(m: Modes, b: Block)
    ensures forall x :: x in MutatedRoots(b) + Unseen(b) <==> !OnlyB(m, {x}, Quiet(), b)
    ensures (forall x :: x in MutatedRoots(b) <==> !OnlyB(m, {x}, Quiet(), b)) <==> Unseen(b) <= MutatedRoots(b)
  {
    hide RootsB, MissedB, OnlyB, Quiet;
    FoundOrMissedB(Assigned, b);
    FoundOrMissedB(Mutated, b);
    forall x
      ensures x in MutatedRoots(b) + Unseen(b) <==> !OnlyB(m, {x}, Quiet(), b)
    {
      QuietExactlyB(m, x, b);
    }
    if u :| u in Unseen(b) && u !in MutatedRoots(b) {
      assert u in MutatedRoots(b) + Unseen(b);
    }
  }

  /** Any run of a block leaves unchanged every outer variable that is in none of
      these sets, closures called and cleanups included. */
  lemma Frame(w: World, name: string, b: Block, env: Env, st: State, fuel: nat)
    requires name !in MutatedRoots(b) + Unseen(b)
    requires name in env && NamesOf(env, env[name]) == {name} && SafeSt(w, Watch(env[name], Quiet()), st)
    ensures var st' := EvalBlock(w, b, env, st, fuel).st;
      env[name] < |st'.store| && st'.store[env[name]] == st.store[env[name]]
  {
    hide MutatedRoots, Unseen, OnlyB, SafeV, EvalBlock;
    RootsExactly(w.modes, b);
    BlockSafe(w, Watch(env[name], Quiet()), {name}, b, env, st, fuel);
  }

  /** `xs = 1` written as a multiple assignment, a form that desugaring removes before
      the later phases: no walk sees it, and it changes `xs`. */
  lemma MultiAssignUnseen(w: World)
    requires w.chance(0) == Chance(1, [])
    ensures var b := Then(MultiAssign(ECons(Name("xs"), ENil), ECons(Lit, ENil)), Final(Lit));
      "xs" !in MutatedRoots(b)
      && EvalBlock(w, b, map["xs" := 0], State([Atom(0)], 0, {}), 0).st.store == [Atom(1)]
  {
  }

  /** `return xs.push(0)`: the walk over receivers does not enter what is returned. */
  lemma ReturnedPushUnseen(w: World)
    requires forall i :: w.chance(i) == Chance(0, [])
    ensures var b := Final(Jump(Return, None, MethodCall(Name("xs"), "push", ECons(Lit, ENil))));
      "xs" !in MutatedRoots(b)
      && EvalBlock(w, b, map["xs" := 0], State([Tup([], 0)], 0, {}), 0).st.store == [Tup([Atom(0)], 0)]
  {
    var env := map["xs" := 0];
    var st0 := State([Tup([], 0)], 0, {});
    var call := MethodCall(Name("xs"), "push", ECons(Lit, ENil));
    var st1 := Note(st0, 0, Through);
    assert EvalPlace(w, Through, Name("xs"), env, st0, 0) == Ok(At(0, []), st1);
    var st2 := Tick(Tick(st1));
    assert Eval(w, Taken, Lit, env, st1, 0) == Ok(Atom(0), Tick(st1));
    assert EvalList(w, None, 0, false, ENil, env, st2, 0) == Ok([], st2);
    var one, none: seq<Value> := [Atom(0)], [];
    assert one + none == one && none + one == one;
    assert EvalList(w, None, 0, false, ECons(Lit, ENil), env, st1, 0) == Ok([Atom(0)], st2);
    MethodRuns(w, "push", At(0, []), [Atom(0)], st2);
    assert WriterOf("push") == Some(AddLast);
    assert BuiltIn("push", Tup(none, 0), one, w.chance(st2.clock + 2)) == Some(Tup([Atom(0)], 0));
    hide RunMethod, EvalList, EvalPlace;
    assert Eval(w, Taken, call, env, st0, 0) == RunMethod(w, "push", At(0, []), [Atom(0)], st2, 0);
  }
}
