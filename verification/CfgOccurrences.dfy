/** What the graph of a body has to record, read off the body itself. */
module CfgOccurrences {
  import opened Options
  import opened CfgSyntax
  import opened CfgLowering
  import opened CfgTame

  /** An identifier at its place; a name that the pattern at a place introduces; an
      identifier that is to be in a side branch of its own. */
  datatype Occ = Used(name: string, span: nat) | Introduced(name: string, span: nat) | Aside(name: string, span: nat)

  /** The use is that occurrence: an identifier with the kind, origin and place that the
      classification has for its span, and Read, Direct and the whole binding where it has
      none; a marker is a direct Define of the whole binding. */
  predicate Says(u: UseSite, o: Occ, cl: Classification) {
    u.binding.name == o.name && u.span == o.span &&
    match o
    case Introduced(_, _) => u.kind == Define && u.origin == Direct && u.place == []
    case _ =>
      && (if o.span in cl.kinds then u.kind == cl.kinds[o.span] else u.kind == Read)
      && (if o.span in cl.origins then u.origin == cl.origins[o.span] else u.origin == Direct)
      && (if o.span in cl.places then u.place == cl.places[o.span] else u.place == [])
  }

  // ── What there is ────────────────────────────────────────────────

  function NameMarks(names: seq<string>, span: nat): set<Occ> {
    set x | x in names :: Introduced(x, span)
  }

  function Marks(pat: Pat): set<Occ> {
    NameMarks(pat.names, pat.span)
  }

  /** The occurrences in an expression, with or without those in errdefer bodies. */
  function OccE(e: Expr, errs: bool): set<Occ> {
    match e
    case Leaf => {}
    case Use(x, span) => {Used(x, span)}
    case Ops(_, es) => OccEs(es, errs)
    case BlockE(b) => OccB(b, errs)
    case If(pat, cond, t, el) =>
      OccE(cond, errs) + Marks(pat) + OccB(t, errs) + (match el case None => {} case Some(x) => OccE(x, errs))
    case Match(s, arms) => OccE(s, errs) + OccArms(arms, errs)
    case While(_, cond, b) => OccE(cond, errs) + OccB(b, errs)
    case For(_, pat, it, b) => OccE(it, errs) + Marks(pat) + OccB(b, errs)
    case Loop(_, b) => OccB(b, errs)
    case Break(_, v) => OccE(v, errs)
    case Continue(_) => {}
    case Return(v) => OccE(v, errs)
    case Question(x) => OccE(x, errs)
    case Closure(x) => OccE(x, errs)
    case MethodCall(o, args) => OccE(o, errs) + OccArgs(args, errs)
  }

  function OccEs(es: Exprs, errs: bool): set<Occ> {
    match es
    case ENil => {}
    case ECons(h, t) => OccE(h, errs) + OccEs(t, errs)
  }

  function OccArgs(args: Args, errs: bool): set<Occ> {
    match args
    case ANil => {}
    case ACons(_, v, t) => OccE(v, errs) + OccArgs(t, errs)
  }

  function OccArms(arms: Arms, errs: bool): set<Occ> {
    match arms
    case NoArm => {}
    case Arm(pat, g, b, others) => Marks(pat) + OccE(g, errs) + OccE(b, errs) + OccArms(others, errs)
  }

  /** `let` without a value and `let-else` introduce names without a marker. */
  function OccB(b: Block, errs: bool): set<Occ> {
    match b
    case Done(e) => OccE(e, errs)
    case Then(s, rest) =>
      (match s
       case Let(pat, v) => OccE(v, errs) + Marks(pat)
       case LetUninit(_) => {}
       case LetElse(_, v, diverge) => OccE(v, errs) + OccB(diverge, errs)
       case Defer(body) => OccB(body, errs)
       case ErrDefer(body) => if errs then OccB(body, errs) else {}
       case Assign(t, v) => OccE(v, errs) + OccE(t, errs)
       case ExprStmt(e) => OccE(e, errs)) + OccB(rest, errs)
  }

  // ── Side branches ────────────────────────────────────────────────

  /** Every `break` and `continue` is for a loop inside; `ls` are their labels. */
  predicate StaysE(e: Expr, ls: seq<Label>) {
    match e
    case Leaf => true
    case Use(_, _) => true
    case Ops(_, es) => StaysEs(es, ls)
    case BlockE(b) => StaysB(b, ls)
    case If(_, cond, t, el) => StaysE(cond, ls) && StaysB(t, ls) && (el.Some? ==> StaysE(el.value, ls))
    case Match(s, arms) => StaysE(s, ls) && StaysArms(arms, ls)
    case While(l, cond, b) => StaysE(cond, ls) && StaysB(b, ls + [l])
    case For(l, _, it, b) => StaysE(it, ls) && StaysB(b, ls + [l])
    case Loop(l, b) => StaysB(b, ls + [l])
    case Break(l, v) => Known(ls, l) && StaysE(v, ls)
    case Continue(l) => Known(ls, l)
    case Return(v) => StaysE(v, ls)
    case Question(x) => StaysE(x, ls)
    case Closure(x) => StaysE(x, ls)
    case MethodCall(o, args) => StaysE(o, ls) && StaysArgs(args, ls)
  }

  predicate StaysEs(es: Exprs, ls: seq<Label>) {
    match es
    case ENil => true
    case ECons(h, t) => StaysE(h, ls) && StaysEs(t, ls)
  }

  predicate StaysArgs(args: Args, ls: seq<Label>) {
    match args
    case ANil => true
    case ACons(_, v, t) => StaysE(v, ls) && StaysArgs(t, ls)
  }

  predicate StaysArms(arms: Arms, ls: seq<Label>) {
    match arms
    case NoArm => true
    case Arm(_, g, b, others) => StaysE(g, ls) && StaysE(b, ls) && StaysArms(others, ls)
  }

  predicate StaysB(b: Block, ls: seq<Label>) {
    match b
    case Done(e) => StaysE(e, ls)
    case Then(s, rest) =>
      (match s
       case Let(_, v) => StaysE(v, ls)
       case LetUninit(_) => true
       case LetElse(_, v, diverge) => StaysE(v, ls) && StaysB(diverge, ls)
       case Defer(_) => true
       case ErrDefer(_) => true
       case Assign(t, v) => StaysE(t, ls) && StaysE(v, ls)
       case ExprStmt(e) => StaysE(e, ls)) && StaysB(rest, ls)
  }

  /** The same for the sink arguments only. */
  predicate StaysSinks(args: Args, cl: Classification) {
    match args
    case ANil => true
    case ACons(span, v, t) => (span in cl.sinks ==> StaysE(v, [])) && StaysSinks(t, cl)
  }

  /** The index of a loop inside. */
  lemma {:induction false} KnownInside(ls: seq<Label>, inner: seq<Label>, lbl: Label)
    requires Known(inner, lbl)
    ensures forall i :: i in ResolveLabel(ls + inner, lbl) ==> |ls| <= i < |ls| + |inner|
    decreases |inner|
  {
    var all := ls + inner;
    assert all[|all| - 1] == inner[|inner| - 1];
    if lbl != None && inner[|inner| - 1] != lbl {
      assert all[..|all| - 1] == ls + inner[..|inner| - 1];
      KnownInside(ls, inner[..|inner| - 1], lbl);
    }
  }

  /** Such code leaves no loop around it. */
  lemma {:induction false} StaysLeaves(e: Expr, ls: seq<Label>, inner: seq<Label>)
    requires StaysE(e, inner)
    ensures forall i :: i in LeavesE(e, ls + inner) ==> |ls| <= i < |ls| + |inner|
    decreases e, 0
  {
    match e
    case Leaf =>
    case Use(_, _) =>
    case Ops(_, es) => StaysLeavesEs(es, ls, inner);
    case BlockE(b) => StaysLeavesB(b, ls, inner);
    case If(_, cond, t, el) =>
      StaysLeaves(cond, ls, inner);
      StaysLeavesB(t, ls, inner);
      if el.Some? {
        StaysLeaves(el.value, ls, inner);
      }
    case Match(s, arms) =>
      StaysLeaves(s, ls, inner);
      StaysLeavesArms(arms, ls, inner);
    case While(l, cond, b) =>
      StaysLeaves(cond, ls, inner);
      StaysLoop(l, b, ls, inner);
    case For(l, _, it, b) =>
      StaysLeaves(it, ls, inner);
      StaysLoop(l, b, ls, inner);
    case Loop(l, b) => StaysLoop(l, b, ls, inner);
    case Break(l, v) =>
      KnownInside(ls, inner, l);
      StaysLeaves(v, ls, inner);
    case Continue(l) => KnownInside(ls, inner, l);
    case Return(v) => StaysLeaves(v, ls, inner);
    case Question(x) => StaysLeaves(x, ls, inner);
    case Closure(x) => StaysLeaves(x, ls, inner);
    case MethodCall(o, args) =>
      StaysLeaves(o, ls, inner);
      StaysLeavesArgs(args, ls, inner);
  }

  lemma {:induction false} StaysLoop(l: Label, b: Block, ls: seq<Label>, inner: seq<Label>)
    requires StaysB(b, inner + [l])
    ensures forall i :: i in LeavesB(b, ls + inner + [l]) ==> |ls| <= i < |ls| + |inner| + 1
    decreases b, 1
  {
    assert ls + inner + [l] == ls + (inner + [l]);
    StaysLeavesB(b, ls, inner + [l]);
  }

  lemma {:induction false} StaysLeavesEs(es: Exprs, ls: seq<Label>, inner: seq<Label>)
    requires StaysEs(es, inner)
    ensures forall i :: i in LeavesEs(es, ls + inner) ==> |ls| <= i < |ls| + |inner|
    decreases es, 0
  {
    if es.ECons? {
      StaysLeaves(es.head, ls, inner);
      StaysLeavesEs(es.tail, ls, inner);
    }
  }

  lemma {:induction false} StaysLeavesArgs(args: Args, ls: seq<Label>, inner: seq<Label>)
    requires StaysArgs(args, inner)
    ensures forall i :: i in LeavesArgs(args, ls + inner) ==> |ls| <= i < |ls| + |inner|
    decreases args, 0
  {
    if args.ACons? {
      StaysLeaves(args.value, ls, inner);
      StaysLeavesArgs(args.tail, ls, inner);
    }
  }

  lemma {:induction false} StaysLeavesArms(arms: Arms, ls: seq<Label>, inner: seq<Label>)
    requires StaysArms(arms, inner)
    ensures forall i :: i in LeavesArms(arms, ls + inner) ==> |ls| <= i < |ls| + |inner|
    decreases arms, 0
  {
    if arms.Arm? {
      StaysLeaves(arms.guard, ls, inner);
      StaysLeaves(arms.body, ls, inner);
      StaysLeavesArms(arms.others, ls, inner);
    }
  }

  lemma {:induction false} StaysLeavesB(b: Block, ls: seq<Label>, inner: seq<Label>)
    requires StaysB(b, inner)
    ensures forall i :: i in LeavesB(b, ls + inner) ==> |ls| <= i < |ls| + |inner|
    decreases b, 0
  {
    match b
    case Done(e) => StaysLeaves(e, ls, inner);
    case Then(s, rest) =>
      StaysLeavesB(rest, ls, inner);
      assert LeavesB(b, ls + inner) == LeavesS(s, ls + inner) + LeavesB(rest, ls + inner);
      match s {
        case Let(_, v) => StaysLeaves(v, ls, inner);
        case LetUninit(_) =>
        case LetElse(_, v, diverge) =>
          StaysLeaves(v, ls, inner);
          StaysLeavesB(diverge, ls, inner);
        case Defer(_) =>
        case ErrDefer(_) =>
        case Assign(t, v) =>
          StaysLeaves(t, ls, inner);
          StaysLeaves(v, ls, inner);
        case ExprStmt(e) => StaysLeaves(e, ls, inner);
      }
  }

  /** Code that stays inside leaves no loop, */
  lemma LeavesNone(e: Expr, ls: seq<Label>)
    requires StaysE(e, [])
    ensures LeavesE(e, ls) == {}
  {
    StaysLeaves(e, ls, []);
    assert ls + [] == ls;
    assert forall i :: i !in LeavesE(e, ls);
  }

  /** and neither do such sink arguments. */
  lemma {:induction false} SinksLeaveNone(args: Args, cl: Classification, ls: seq<Label>)
    requires StaysSinks(args, cl)
    ensures LeavesSinks(args, cl, ls) == {}
  {
    if args.ACons? {
      SinksLeaveNone(args.tail, cl, ls);
      if args.span in cl.sinks {
        LeavesNone(args.value, ls);
      }
    }
  }

  // ── What there has to be ─────────────────────────────────────────

  /** Those identifiers are in a side branch. */
  function Asides(os: set<Occ>): set<Occ> {
    set o | o in os && o.Used? :: Aside(o.name, o.span)
  }

  /** What the lowering of an expression has to record: every occurrence outside errdefer
      bodies; and outside sink arguments, the identifiers of a closure and those of the sink
      arguments of a call in a side branch, unless a `break` or `continue` leaves it. */
  function DueE(e: Expr, cl: Classification, inSink: bool): set<Occ> {
    match e
    case Leaf => {}
    case Use(x, span) => {Used(x, span)}
    case Ops(_, es) => DueEs(es, cl, inSink)
    case BlockE(b) => DueB(b, cl, inSink)
    case If(pat, cond, t, el) =>
      DueE(cond, cl, inSink) + Marks(pat) + DueB(t, cl, inSink) +
      (match el case None => {} case Some(x) => DueE(x, cl, inSink))
    case Match(s, arms) => DueE(s, cl, inSink) + DueArms(arms, cl, inSink)
    case While(_, cond, b) => DueE(cond, cl, inSink) + DueB(b, cl, inSink)
    case For(_, pat, it, b) => DueE(it, cl, inSink) + Marks(pat) + DueB(b, cl, inSink)
    case Loop(_, b) => DueB(b, cl, inSink)
    case Break(_, v) => DueE(v, cl, inSink)
    case Continue(_) => {}
    case Return(v) => DueE(v, cl, inSink)
    case Question(x) => DueE(x, cl, inSink)
    case Closure(x) =>
      DueE(x, cl, inSink) + (if !inSink && StaysE(x, []) then Asides(DueE(x, cl, inSink)) else {})
    case MethodCall(o, args) =>
      DueE(o, cl, inSink) + DueArgs(args, false, cl, inSink) + DueArgs(args, true, cl, true) +
      (if !inSink && StaysSinks(args, cl) then Asides(DueArgs(args, true, cl, true)) else {})
  }

  function DueEs(es: Exprs, cl: Classification, inSink: bool): set<Occ> {
    match es
    case ENil => {}
    case ECons(h, t) => DueE(h, cl, inSink) + DueEs(t, cl, inSink)
  }

  /** Those in the sink arguments, or in the others. */
  function DueArgs(args: Args, sinks: bool, cl: Classification, inSink: bool): set<Occ> {
    match args
    case ANil => {}
    case ACons(span, v, t) =>
      (if (span in cl.sinks) == sinks then DueE(v, cl, inSink) else {}) + DueArgs(t, sinks, cl, inSink)
  }

  function DueArms(arms: Arms, cl: Classification, inSink: bool): set<Occ> {
    match arms
    case NoArm => {}
    case Arm(pat, g, b, others) =>
      Marks(pat) + DueE(g, cl, inSink) + DueE(b, cl, inSink) + DueArms(others, cl, inSink)
  }

  function DueB(b: Block, cl: Classification, inSink: bool): set<Occ> {
    match b
    case Done(e) => DueE(e, cl, inSink)
    case Then(s, rest) =>
      (match s
       case Let(pat, v) => DueE(v, cl, inSink) + Marks(pat)
       case LetUninit(_) => {}
       case LetElse(_, v, diverge) => DueE(v, cl, inSink) + DueB(diverge, cl, inSink)
       case Defer(body) => DueB(body, cl, inSink)
       case ErrDefer(_) => {}
       case Assign(t, v) => DueE(v, cl, inSink) + DueE(t, cl, inSink)
       case ExprStmt(e) => DueE(e, cl, inSink)) + DueB(rest, cl, inSink)
  }

  // ── Every occurrence is due ──────────────────────────────────────

  lemma {:induction false} OccDue(e: Expr, cl: Classification, inSink: bool)
    ensures OccE(e, false) <= DueE(e, cl, inSink)
    decreases e, 0
  {
    match e
    case Leaf =>
    case Use(_, _) =>
    case Ops(_, es) => OccDueEs(es, cl, inSink);
    case BlockE(b) => OccDueB(b, cl, inSink);
    case If(_, cond, t, el) =>
      OccDue(cond, cl, inSink);
      OccDueB(t, cl, inSink);
      if el.Some? {
        OccDue(el.value, cl, inSink);
      }
    case Match(s, arms) =>
      OccDue(s, cl, inSink);
      OccDueArms(arms, cl, inSink);
    case While(_, cond, b) =>
      OccDue(cond, cl, inSink);
      OccDueB(b, cl, inSink);
    case For(_, _, it, b) =>
      OccDue(it, cl, inSink);
      OccDueB(b, cl, inSink);
    case Loop(_, b) => OccDueB(b, cl, inSink);
    case Break(_, v) => OccDue(v, cl, inSink);
    case Continue(_) =>
    case Return(v) => OccDue(v, cl, inSink);
    case Question(x) => OccDue(x, cl, inSink);
    case Closure(x) => OccDue(x, cl, inSink);
    case MethodCall(o, args) =>
      OccDue(o, cl, inSink);
      OccDueArgs(args, cl, inSink);
  }

  lemma {:induction false} OccDueEs(es: Exprs, cl: Classification, inSink: bool)
    ensures OccEs(es, false) <= DueEs(es, cl, inSink)
    decreases es, 0
  {
    if es.ECons? {
      OccDue(es.head, cl, inSink);
      OccDueEs(es.tail, cl, inSink);
    }
  }

  lemma {:induction false} OccDueArgs(args: Args, cl: Classification, inSink: bool)
    ensures OccArgs(args, false) <= DueArgs(args, false, cl, inSink) + DueArgs(args, true, cl, true)
    decreases args, 0
  {
    if args.ACons? {
      OccDue(args.value, cl, inSink);
      OccDue(args.value, cl, true);
      OccDueArgs(args.tail, cl, inSink);
    }
  }

  lemma {:induction false} OccDueArms(arms: Arms, cl: Classification, inSink: bool)
    ensures OccArms(arms, false) <= DueArms(arms, cl, inSink)
    decreases arms, 0
  {
    if arms.Arm? {
      OccDue(arms.guard, cl, inSink);
      OccDue(arms.body, cl, inSink);
      OccDueArms(arms.others, cl, inSink);
    }
  }

  lemma {:induction false} OccDueB(b: Block, cl: Classification, inSink: bool)
    ensures OccB(b, false) <= DueB(b, cl, inSink)
    decreases b, 0
  {
    match b
    case Done(e) => OccDue(e, cl, inSink);
    case Then(s, rest) =>
      OccDueB(rest, cl, inSink);
      match s {
        case Let(_, v) => OccDue(v, cl, inSink);
        case LetUninit(_) =>
        case LetElse(_, v, diverge) =>
          OccDue(v, cl, inSink);
          OccDueB(diverge, cl, inSink);
        case Defer(body) => OccDueB(body, cl, inSink);
        case ErrDefer(_) =>
        case Assign(t, v) =>
          OccDue(t, cl, inSink);
          OccDue(v, cl, inSink);
        case ExprStmt(e) => OccDue(e, cl, inSink);
      }
  }
}
