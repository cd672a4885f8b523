/** Whether a pattern binding is only read through: the counters of
    `src/binding_use.rs`, the positions that they count, and what its verdict says
    about runs. */
module BindingUse {
  import opened Options
  import opened TreeSyntax
  import opened TreeRuns
  import opened TreeSafety

  /** The counters; `captured` if a closure mentions the name. */
  datatype Counts = Counts(mentions: nat, readThrough: nat, scrutinee: nat, captured: bool)

  function Zero(): Counts {
    Counts(0, 0, 0, false)
  }

  function Plus(c: Counts, d: Counts): Counts {
    Counts(c.mentions + d.mentions, c.readThrough + d.readThrough, c.scrutinee + d.scrutinee, c.captured || d.captured)
  }

  lemma PlusZero(c: Counts)
    ensures Plus(c, Zero()) == c
  {
  }

  lemma ZeroPlus(c: Counts)
    ensures Plus(Zero(), c) == c
  {
  }

  lemma PlusAssoc(c: Counts, d: Counts, e: Counts)
    ensures Plus(Plus(c, d), e) == Plus(c, Plus(d, e))
  {
  }

  /** The counts of a closure, from those of its code. */
  function Shut(c: Counts): Counts {
    c.(captured := c.captured || c.mentions > 0)
  }

  lemma PlusShut(c: Counts, d: Counts)
    ensures Plus(c, d).mentions > c.mentions <==> d.mentions > 0
    ensures Plus(c, Shut(d)) == if d.mentions > 0 then Plus(c, d).(captured := true) else Plus(c, d)
  {
  }

  predicate IsBare(name: string, e: Expr) {
    e.Name? && e.n == name
  }

  /** What a position adds if a bare name stands there. */
  function PositionOwn(how: Kind, bare: bool): Counts {
    if !bare then Zero()
    else Counts(0, if how.Through? || how.Lent? then 1 else 0, if how.Scrutinised? then 1 else 0, false)
  }

  /** What one node adds for itself: it may be the name, or have it directly under it. */
  function Own(name: string, e: Expr): Counts {
    if IsBare(name, e) then Counts(1, 0, 0, false)
    else if e.Project? || e.Index? || e.MethodCall? || e.OptionalChain? then PositionOwn(Through, IsBare(name, e.base))
    else if e.Match? then PositionOwn(Scrutinised, IsBare(name, e.scrutinee))
    else if e.If? then PositionOwn(if e.pat.Some? then Scrutinised else Taken, IsBare(name, e.cond))
    else if e.Loop? then PositionOwn(if e.loop.WhileLet? then Scrutinised else Taken, IsBare(name, e.head))
    else Zero()
  }

  function Count(m: Modes, name: string, e: Expr): Counts
    decreases e, 1
  {
    Plus(Own(name, e), CountParts(m, name, e))
  }

  function CountParts(m: Modes, name: string, e: Expr): Counts
    decreases e, 0
  {
    match e
    case Lit => Zero()
    case Name(_) => Zero()
    case Project(o, _) => Count(m, name, o)
    case Index(o, i) => Plus(Count(m, name, o), Count(m, name, i))
    case MethodCall(o, _, args) => Plus(Count(m, name, o), CountL(m, name, None, 0, args))
    case OptionalChain(o, args) => Plus(Count(m, name, o), CountL(m, name, None, 0, args))
    case Call(c, args) => Plus(Count(m, name, c), CountL(m, name, Some(c), 0, args))
    case Group(_, items) => CountL(m, name, None, 0, items)
    case Jump(_, _, v) => Count(m, name, v)
    case BlockE(_, b) => CountB(m, name, b)
    case If(_, c, t, f) => Plus(Plus(Count(m, name, c), CountB(m, name, t)), Count(m, name, f))
    case Match(s, arms) => Plus(Count(m, name, s), CountArms(m, name, arms))
    case Loop(_, _, h, b) => Plus(Count(m, name, h), CountB(m, name, b))
    case Scoped(_, hs, b) => Plus(CountL(m, name, None, 0, hs), CountB(m, name, b))
    case Closure(_, c) => Shut(Count(m, name, c))
  }

  /** What an argument adds; a bare name is only read if the callee borrows it. */
  function CountArg(m: Modes, name: string, callee: Option<Expr>, i: nat, e: Expr): Counts
    decreases e, 2
  {
    if IsBare(name, e) && callee.Some? && m(callee.value, i) then Counts(1, 1, 0, false) else Count(m, name, e)
  }

  function CountL(m: Modes, name: string, callee: Option<Expr>, i: nat, es: Exprs): Counts
    decreases es, 0
  {
    match es
    case ENil => Zero()
    case ECons(h, t) => Plus(CountArg(m, name, callee, i, h), CountL(m, name, callee, i + 1, t))
  }

  function CountArms(m: Modes, name: string, arms: Arms): Counts
    decreases arms, 0
  {
    match arms
    case NoArm => Zero()
    case Arm(_, g, b, others) => Plus(Plus(Count(m, name, g), Count(m, name, b)), CountArms(m, name, others))
  }

  function CountB(m: Modes, name: string, b: Block): Counts
    decreases b, 0
  {
    match b
    case Final(e) => Count(m, name, e)
    case Then(s, rest) => Plus(CountS(m, name, s), CountB(m, name, rest))
  }

  function CountS(m: Modes, name: string, s: Stmt): Counts
    decreases s, 0
  {
    match s
    case Let(_, v) => Count(m, name, v)
    case LetUninit(_) => Zero()
    case LetElse(_, v, b) => Plus(Count(m, name, v), CountB(m, name, b))
    case Defer(_, b) => CountB(m, name, b)
    case Assign(_, t, v) => Plus(Count(m, name, t), Count(m, name, v))
    case MultiAssign(ts, vs) => Plus(CountL(m, name, None, 0, ts), CountL(m, name, None, 0, vs))
    case Do(e) => Count(m, name, e)
  }

  // ── The walk ─────────────────────────────────────────────────────

  /** Without an oracle no argument is borrowed. */
  function ModesOf(borrows: Option<Modes>): Modes {
    match borrows case None => (_, _) => false case Some(f) => f
  }

  /** `Tally`. */
  class Tally {
    const borrows: Option<Modes>
    var mentions: nat
    var readThrough: nat
    var matchScrutinee: nat
    var captured: bool

    function Counted(): Counts
      reads this
    {
      Counts(mentions, readThrough, matchScrutinee, captured)
    }

    constructor (borrows: Option<Modes>)
      ensures Counted() == Zero() && this.borrows == borrows
    {
      this.borrows := borrows;
      mentions, readThrough, matchScrutinee, captured := 0, 0, 0, false;
    }

    /** `verdict`. */
    predicate Verdict()
      reads this
    {
      !captured && mentions == readThrough
    }

    method WalkExpr(name: string, e: Expr)
      modifies this
      ensures Counted() == Plus(old(Counted()), Count(ModesOf(borrows), name, e))
      decreases e, 1
    {
      hide Count, CountParts, ModesOf;
      CountIs(ModesOf(borrows), name, e);
      if IsBare(name, e) {
        mentions := mentions + 1;
      }
      if (e.Project? || e.Index? || e.MethodCall? || e.OptionalChain?) && IsBare(name, e.base) {
        readThrough := readThrough + 1;
      }
      if (e.Match? && IsBare(name, e.scrutinee)) || (e.If? && e.pat.Some? && IsBare(name, e.cond))
         || (e.Loop? && e.loop.WhileLet? && IsBare(name, e.head)) {
        matchScrutinee := matchScrutinee + 1;
      }
      WalkParts(name, e);
    }

    /** The last match of `walk_expr`: what is under the node. */
    method WalkParts(name: string, e: Expr)
      modifies this
      ensures Counted() == Plus(old(Counted()), CountParts(ModesOf(borrows), name, e))
      decreases e, 0
    {
      hide Count, CountL, CountB, CountArms, ModesOf, Plus;
      ghost var m, c := ModesOf(borrows), Counted();
      PlusZero(c);
      match e {
        case Lit =>
        case Name(_) =>
        case Project(x, _) => WalkExpr(name, x);
        case Index(a, b) => WalkExpr(name, a); WalkExpr(name, b);
          PlusAssoc(c, Count(m, name, a), Count(m, name, b));
        case MethodCall(obj, _, args) => WalkExpr(name, obj); WalkList(name, None, args);
          PlusAssoc(c, Count(m, name, obj), CountL(m, name, None, 0, args));
        case OptionalChain(obj, args) => WalkExpr(name, obj); WalkList(name, None, args);
          PlusAssoc(c, Count(m, name, obj), CountL(m, name, None, 0, args));
        case Call(obj, args) => WalkExpr(name, obj); WalkList(name, Some(obj), args);
          PlusAssoc(c, Count(m, name, obj), CountL(m, name, Some(obj), 0, args));
        case Group(_, items) => WalkList(name, None, items);
        case Jump(_, _, x) => WalkExpr(name, x);
        case BlockE(_, b) => WalkBlock(name, b);
        case If(_, head, t, f) => WalkExpr(name, head); WalkBlock(name, t); WalkExpr(name, f);
          PlusAssoc(c, Count(m, name, head), CountB(m, name, t));
          PlusAssoc(c, Plus(Count(m, name, head), CountB(m, name, t)), Count(m, name, f));
        case Match(s, arms) => WalkExpr(name, s); WalkArms(name, arms);
          PlusAssoc(c, Count(m, name, s), CountArms(m, name, arms));
        case Loop(_, _, head, b) => WalkExpr(name, head); WalkBlock(name, b);
          PlusAssoc(c, Count(m, name, head), CountB(m, name, b));
        case Scoped(_, heads, b) => WalkList(name, None, heads); WalkBlock(name, b);
          PlusAssoc(c, CountL(m, name, None, 0, heads), CountB(m, name, b));
        case Closure(_, code) =>
          var before := mentions;
          WalkExpr(name, code);
          PlusShut(c, Count(m, name, code));
          if mentions > before {
            captured := true;
          }
      }
    }

    /** Operands; those of a call have a callee. */
    method WalkList(name: string, callee: Option<Expr>, es: Exprs)
      modifies this
      ensures Counted() == Plus(old(Counted()), CountL(ModesOf(borrows), name, callee, 0, es))
      decreases es, 0
    {
      hide Count, CountArg, ModesOf, Passed;
      ghost var m := ModesOf(borrows);
      var i, rest := 0, es;
      while rest.ECons?
        invariant Plus(Counted(), CountL(m, name, callee, i, rest)) ==
            Plus(old(Counted()), CountL(m, name, callee, 0, es))
        invariant rest == es || rest < es
        decreases rest
      {
        ArgIs(borrows, name, callee, i, rest.head);
        if IsBare(name, rest.head) && callee.Some? && borrows.Some? && borrows.value(callee.value, i) {
          mentions := mentions + 1;
          readThrough := readThrough + 1;
        } else {
          WalkExpr(name, rest.head);
        }
        i, rest := i + 1, rest.tail;
      }
    }

    method WalkArms(name: string, arms: Arms)
      modifies this
      ensures Counted() == Plus(old(Counted()), CountArms(ModesOf(borrows), name, arms))
      decreases arms, 0
    {
      hide Count, ModesOf;
      ghost var m := ModesOf(borrows);
      var rest := arms;
      while rest.Arm?
        invariant Plus(Counted(), CountArms(m, name, rest)) == Plus(old(Counted()), CountArms(m, name, arms))
        invariant rest == arms || rest < arms
        decreases rest
      {
        WalkExpr(name, rest.guard);
        WalkExpr(name, rest.body);
        rest := rest.others;
      }
    }

    method WalkBlock(name: string, b: Block)
      modifies this
      ensures Counted() == Plus(old(Counted()), CountB(ModesOf(borrows), name, b))
      decreases b, 0
    {
      hide Count, CountS, ModesOf;
      ghost var m := ModesOf(borrows);
      var rest := b;
      while rest.Then?
        invariant Plus(Counted(), CountB(m, name, rest)) == Plus(old(Counted()), CountB(m, name, b))
        invariant rest == b || rest < b
        decreases rest
      {
        WalkStmt(name, rest.first);
        rest := rest.rest;
      }
      WalkExpr(name, rest.e);
    }

    method WalkStmt(name: string, s: Stmt)
      modifies this
      ensures Counted() == Plus(old(Counted()), CountS(ModesOf(borrows), name, s))
      decreases s, 0
    {
      hide Count, CountL, CountB, ModesOf;
      match s
      case Let(_, v) => WalkExpr(name, v);
      case LetUninit(_) =>
      case LetElse(_, v, b) => WalkExpr(name, v); WalkBlock(name, b);
      case Defer(_, b) => WalkBlock(name, b);
      case Assign(_, t, v) => WalkExpr(name, t); WalkExpr(name, v);
      case MultiAssign(ts, vs) => WalkList(name, None, ts); WalkList(name, None, vs);
      case Do(e) => WalkExpr(name, e);
    }
  }

  lemma CountIs(m: Modes, name: string, e: Expr)
    ensures Count(m, name, e) == Plus(Own(name, e), CountParts(m, name, e))
  {
  }

  lemma ArgIs(borrows: Option<Modes>, name: string, callee: Option<Expr>, i: nat, e: Expr)
    ensures CountArg(ModesOf(borrows), name, callee, i, e)
      == if IsBare(name, e) && callee.Some? && borrows.Some? && borrows.value(callee.value, i) then
          Counts(1, 1, 0, false)
         else Count(ModesOf(borrows), name, e)
  {
    hide Count;
  }

  /** The binding is destructured by `if let`, `while let` or `match`. */
  predicate Destructured(name: string, p: Expr) {
    || (p.If? && p.pat.Some? && p.cond == Name(name))
    || (p.Loop? && p.loop.WhileLet? && p.head == Name(name))
    || (p.Match? && p.scrutinee == Name(name))
  }

  /** The binding is handed on as a value: called, or an argument that is not borrowed. */
  ghost predicate HandedOn(m: Modes, name: string, p: Expr) {
    p.Call? && (p.callee == Name(name) || exists k: nat :: Nth(p.args, k) == Some(Name(name)) && !m(p.callee, k))
  }

  lemma NotRead(m: Modes, name: string, p: Expr)
    requires Destructured(name, p) || HandedOn(m, name, p)
    ensures Violates(m, {name}, ReadKinds(), p)
  {
    hide OnlyB, OnlyArms, OnlyL;
    if p.Call? && p.callee != Name(name) {
      var k: nat :| Nth(p.args, k) == Some(Name(name)) && !m(p.callee, k);
      NthBare(m, {name}, ReadKinds(), Some(p.callee), 0, p.args, k);
    }
    forall how
      ensures !Only(m, {name}, ReadKinds(), how, p)
    {
      OnlyIs(m, {name}, ReadKinds(), how, p);
    }
  }

  method BindingOnlyReadThrough(name: string, e: Expr, borrows: Option<Modes>) returns (yes: bool)
    ensures yes <==> OnlyRead(ModesOf(borrows), name, e)
    ensures forall p :: Within(p, e) && (Destructured(name, p) || HandedOn(ModesOf(borrows), name, p)) ==> !yes
  {
    hide Count, CountParts, Only, Within, Destructured, HandedOn, ReadKinds;
    forall p | Within(p, e) && (Destructured(name, p) || HandedOn(ModesOf(borrows), name, p))
      ensures !OnlyRead(ModesOf(borrows), name, e)
    {
      NotRead(ModesOf(borrows), name, p);
      PartBreaks(ModesOf(borrows), {name}, ReadKinds(), p, Taken, e);
    }
    var t := new Tally(borrows);
    t.WalkExpr(name, e);
    ReadExactly(ModesOf(borrows), name, e);
    yes := t.Verdict();
  }

  method BindingOnlyNestedMatchScrutinee(name: string, e: Expr) returns (yes: bool)
    ensures yes <==> OnlyScrutinised(Blind(), name, e) && Mentions({name}, e)
  {
    hide Count, CountParts;
    var t := new Tally(None);
    t.WalkExpr(name, e);
    ReadExactly(Blind(), name, e);
    yes := !t.captured && t.mentions > 0 && t.mentions == t.matchScrutinee;
  }

  // ── The positions counted ────────────────────────────────────────

  function ReadKinds(): set<Kind> {
    {Through, Lent, Altered}
  }

  function MatchKinds(): set<Kind> {
    {Scrutinised}
  }

  /** Nothing but reads through the name. */
  predicate OnlyRead(m: Modes, name: string, e: Expr) {
    Only(m, {name}, ReadKinds(), Taken, e)
  }

  /** Nothing but the heads of nested matches. */
  predicate OnlyScrutinised(m: Modes, name: string, e: Expr) {
    Only(m, {name}, MatchKinds(), Taken, e)
  }

  /** What an expression adds together with its position. */
  function Placed(m: Modes, name: string, how: Kind, e: Expr): Counts {
    Plus(PositionOwn(how, IsBare(name, e)), Count(m, name, e))
  }

  /** The counts of a tree, and whether the name is only read, only scrutinised, and
      mentioned there. */
  datatype Told = Told(c: Counts, read: bool, scrutinised: bool, mentioned: bool)

  function And(t: Told, u: Told): Told {
    Told(Plus(t.c, u.c), t.read && u.read, t.scrutinised && u.scrutinised, t.mentioned || u.mentioned)
  }

  /** The counts tell these. */
  predicate Right(t: Told) {
    && t.c.readThrough + t.c.scrutinee <= t.c.mentions
    && (t.read <==> !t.c.captured && t.c.mentions == t.c.readThrough)
    && (t.scrutinised <==> !t.c.captured && t.c.mentions == t.c.scrutinee)
    && (t.mentioned <==> t.c.mentions > 0)
  }

  lemma RightAnd(t: Told, u: Told)
    requires Right(t) && Right(u)
    ensures Right(And(t, u))
  {
  }

  lemma RightShut(t: Told)
    requires Right(t)
    ensures Right(Told(Shut(t.c), !t.mentioned && t.read, !t.mentioned && t.scrutinised, t.mentioned))
  {
  }

  function ToldE(m: Modes, name: string, how: Kind, e: Expr): Told {
    Told(Placed(m, name, how, e), Only(m, {name}, ReadKinds(), how, e), Only(m, {name}, MatchKinds(), how, e),
        Mentions({name}, e))
  }

  function ToldL(m: Modes, name: string, callee: Option<Expr>, i: nat, es: Exprs): Told {
    Told(CountL(m, name, callee, i, es), OnlyL(m, {name}, ReadKinds(), callee, i, es),
         OnlyL(m, {name}, MatchKinds(), callee, i, es), MentionsL({name}, es))
  }

  function ToldArms(m: Modes, name: string, arms: Arms): Told {
    Told(CountArms(m, name, arms), OnlyArms(m, {name}, ReadKinds(), arms), OnlyArms(m, {name}, MatchKinds(), arms),
        MentionsArms({name}, arms))
  }

  function ToldB(m: Modes, name: string, b: Block): Told {
    Told(CountB(m, name, b), OnlyB(m, {name}, ReadKinds(), b), OnlyB(m, {name}, MatchKinds(), b), MentionsB({name}, b))
  }

  function ToldS(m: Modes, name: string, s: Stmt): Told {
    Told(CountS(m, name, s), OnlyS(m, {name}, ReadKinds(), s), OnlyS(m, {name}, MatchKinds(), s), MentionsS({name}, s))
  }

  function ToldTarget(m: Modes, name: string, t: Expr): Told {
    Told(Count(m, name, t), OnlyTarget(m, {name}, ReadKinds(), t), OnlyTarget(m, {name}, MatchKinds(), t),
        Mentions({name}, t))
  }

  function ToldTargets(m: Modes, name: string, i: nat, ts: Exprs): Told {
    Told(CountL(m, name, None, i, ts), OnlyTargets(m, {name}, ReadKinds(), ts),
        OnlyTargets(m, {name}, MatchKinds(), ts), MentionsL({name}, ts))
  }

  /** The root of a place under a projection is read through. */
  lemma {:induction false} RootRead(m: Modes, name: string, e: Expr)
    ensures AssignTargetRoot(e) == Some(name) ==> !Only(m, {name}, MatchKinds(), Through, e)
    ensures AssignTargetRoot(e) == Some(name) && !e.Name? ==> !Only(m, {name}, MatchKinds(), Replaced, e)
    decreases e
  {
    hide OnlyL, OnlyB, OnlyArms;
    if e.Project? || e.Index? {
      RootRead(m, name, e.base);
    }
  }

  lemma BareCounts(m: Modes, name: string, e: Expr)
    requires IsBare(name, e)
    ensures Count(m, name, e) == Counts(1, 0, 0, false)
  {
    NameCounts(m, name, e);
    hide Count;
  }

  /** The counts of a form are those of its parts in their positions. */
  lemma CountParent(m: Modes, name: string, e: Expr)
    ensures e.Project? ==> Count(m, name, e) == Placed(m, name, Through, e.base)
    ensures e.Index? ==> Count(m, name, e) == Plus(Placed(m, name, Through, e.base), Count(m, name, e.index))
    ensures e.MethodCall? ==>
        Count(m, name, e) == Plus(Placed(m, name, Through, e.base), CountL(m, name, None, 0, e.args))
    ensures e.OptionalChain? ==>
        Count(m, name, e) == Plus(Placed(m, name, Through, e.base), CountL(m, name, None, 0, e.args))
    ensures e.If? ==>
        Count(m, name, e) == Plus(Plus(Placed(m, name, HeadKind(e.pat.Some?), e.cond), CountB(m, name, e.thenBranch)),
        Count(m, name, e.elseBranch))
    ensures e.Match? ==>
        Count(m, name, e) == Plus(Placed(m, name, Scrutinised, e.scrutinee), CountArms(m, name, e.arms))
    ensures e.Loop? ==>
        Count(m, name, e) == Plus(Placed(m, name, HeadKind(e.loop.WhileLet?), e.head), CountB(m, name, e.body))
    ensures !(e.Name? || e.Project? || e.Index? || e.MethodCall? || e.OptionalChain? || e.If? || e.Match? || e.Loop?)
      ==> Count(m, name, e) == CountParts(m, name, e)
  {
    hide Count, CountL, CountB, CountArms, IsBare, PositionOwn, Plus;
    CountIs(m, name, e);
    if !e.Name? {
      NotBare(name, e);
    }
    var own := Own(name, e);
    match e
    case Index(o, i) => PlusAssoc(own, Count(m, name, o), Count(m, name, i));
    case MethodCall(o, _, args) => PlusAssoc(own, Count(m, name, o), CountL(m, name, None, 0, args));
    case OptionalChain(o, args) => PlusAssoc(own, Count(m, name, o), CountL(m, name, None, 0, args));
    case If(_, c, t, f) =>
      PlusAssoc(own, Count(m, name, c), CountB(m, name, t));
      PlusAssoc(own, Plus(Count(m, name, c), CountB(m, name, t)), Count(m, name, f));
    case Match(s, arms) => PlusAssoc(own, Count(m, name, s), CountArms(m, name, arms));
    case Loop(_, _, h, b) => PlusAssoc(own, Count(m, name, h), CountB(m, name, b));
    case _ => ZeroPlus(CountParts(m, name, e));
  }

  lemma NotBare(name: string, e: Expr)
    requires !e.Name?
    ensures !IsBare(name, e)
  {
  }

  lemma NameCounts(m: Modes, name: string, e: Expr)
    requires e.Name?
    ensures Count(m, name, e) == if e.n == name then Counts(1, 0, 0, false) else Zero()
  {
    hide Count;
    CountIs(m, name, e);
    NoParts(m, name, e);
    hide CountParts;
  }

  lemma NoParts(m: Modes, name: string, e: Expr)
    requires e.Name?
    ensures CountParts(m, name, e) == Zero()
  {
    hide Count;
  }

  lemma NameTells(m: Modes, name: string, how: Kind, e: Expr)
    requires e.Name? && how != Altered
    ensures Right(ToldE(m, name, how, e))
  {
    hide Count, ReadKinds, MatchKinds;
    NameCounts(m, name, e);
    KindsAre(how);
  }

  lemma KindsAre(how: Kind)
    ensures how in ReadKinds() <==> how.Through? || how.Lent? || how.Altered?
    ensures how in MatchKinds() <==> how.Scrutinised?
  {
  }

  lemma {:induction false} CountTells(m: Modes, name: string, how: Kind, e: Expr)
    requires how != Altered
    ensures Right(ToldE(m, name, how, e))
    ensures how == Taken || how == Replaced ==> Placed(m, name, how, e) == Count(m, name, e)
    decreases e, 1
  {
    hide Only, Mentions, Right, Count, ToldE, Placed;
    if how == Taken || how == Replaced {
      PlacedTaken(m, name, how, e);
    }
    if e.Name? {
      NameTells(m, name, how, e);
    } else if e.Project? || e.Index? || e.MethodCall? || e.OptionalChain? {
      ObjectTells(m, name, how, e);
    } else if e.If? || e.Match? || e.Loop? {
      HeadTells(m, name, how, e);
    } else {
      PartsTell(m, name, how, e);
    }
  }

  lemma PlacedTaken(m: Modes, name: string, how: Kind, e: Expr)
    requires how == Taken || how == Replaced
    ensures Placed(m, name, how, e) == Count(m, name, e)
  {
    hide Count;
  }

  lemma NotBarePlaced(m: Modes, name: string, how: Kind, e: Expr)
    requires !e.Name?
    ensures Placed(m, name, how, e) == Count(m, name, e)
  {
    hide Count;
  }

  lemma ObjectTells(m: Modes, name: string, how: Kind, e: Expr)
    requires e.Project? || e.Index? || e.MethodCall? || e.OptionalChain?
    ensures Right(ToldE(m, name, how, e))
    decreases e, 0
  {
    hide Only, Count, CountL, OnlyL, MentionsL, IsMutatingCollectionMethod, AssignTargetRoot, Own, ReadKinds,
        MatchKinds, Right, Placed;
    NotBarePlaced(m, name, how, e);
    CountParent(m, name, e);
    KindsAre(Altered);
    OnlyIs(m, {name}, ReadKinds(), how, e);
    OnlyIs(m, {name}, MatchKinds(), how, e);
    CountTells(m, name, Through, e.base);
    var base := ToldE(m, name, Through, e.base);
    match e
    case Project(_, _) =>
      assert ToldE(m, name, how, e) == base;
    case Index(_, i) =>
      CountTells(m, name, Taken, i);
      RightAnd(base, ToldE(m, name, Taken, i));
    case MethodCall(o, _, args) =>
      ListTells(m, name, None, 0, args);
      RootRead(m, name, o);
      RightAnd(base, ToldL(m, name, None, 0, args));
    case OptionalChain(_, args) =>
      ListTells(m, name, None, 0, args);
      RightAnd(base, ToldL(m, name, None, 0, args));
  }

  lemma HeadTells(m: Modes, name: string, how: Kind, e: Expr)
    requires e.If? || e.Match? || e.Loop?
    ensures Right(ToldE(m, name, how, e))
    decreases e, 0
  {
    hide Only, Count, CountB, CountArms, OnlyB, OnlyArms, MentionsB, MentionsArms, Own, ReadKinds, MatchKinds, Right,
        Placed;
    NotBarePlaced(m, name, how, e);
    CountParent(m, name, e);
    OnlyIs(m, {name}, ReadKinds(), how, e);
    OnlyIs(m, {name}, MatchKinds(), how, e);
    match e
    case If(p, c, t, f) =>
      CountTells(m, name, HeadKind(p.Some?), c);
      BlockTells(m, name, t);
      CountTells(m, name, Taken, f);
      var head := ToldE(m, name, HeadKind(p.Some?), c);
      RightAnd(head, ToldB(m, name, t));
      RightAnd(And(head, ToldB(m, name, t)), ToldE(m, name, Taken, f));
    case Match(s, arms) =>
      CountTells(m, name, Scrutinised, s);
      ArmsTell(m, name, arms);
      RightAnd(ToldE(m, name, Scrutinised, s), ToldArms(m, name, arms));
    case Loop(_, l, h, b) =>
      CountTells(m, name, HeadKind(l.WhileLet?), h);
      BlockTells(m, name, b);
      RightAnd(ToldE(m, name, HeadKind(l.WhileLet?), h), ToldB(m, name, b));
  }

  lemma PartsTell(m: Modes, name: string, how: Kind, e: Expr)
    requires !(e.Name? || e.Project? || e.Index? || e.MethodCall? || e.OptionalChain? || e.If? || e.Match? || e.Loop?)
    ensures Right(ToldE(m, name, how, e))
    decreases e, 0
  {
    hide Only, Count, CountL, CountB, OnlyL, OnlyB, MentionsL, MentionsB, Own, ReadKinds, MatchKinds, Right, Placed,
        Shut;
    NotBarePlaced(m, name, how, e);
    CountParent(m, name, e);
    KindsAre(Captured);
    OnlyIs(m, {name}, ReadKinds(), how, e);
    OnlyIs(m, {name}, MatchKinds(), how, e);
    match e
    case Lit => assert Right(Told(Zero(), true, true, false)) by { LitTells(); }
    case Call(c, args) =>
      CountTells(m, name, Taken, c);
      ListTells(m, name, Some(c), 0, args);
      RightAnd(ToldE(m, name, Taken, c), ToldL(m, name, Some(c), 0, args));
    case Group(_, items) =>
      ListTells(m, name, None, 0, items);
      assert ToldE(m, name, how, e) == ToldL(m, name, None, 0, items);
    case Jump(_, _, v) =>
      CountTells(m, name, Taken, v);
      assert ToldE(m, name, how, e) == ToldE(m, name, Taken, v);
    case BlockE(_, b) =>
      BlockTells(m, name, b);
      assert ToldE(m, name, how, e) == ToldB(m, name, b);
    case Scoped(_, hs, b) =>
      ListTells(m, name, None, 0, hs);
      BlockTells(m, name, b);
      RightAnd(ToldL(m, name, None, 0, hs), ToldB(m, name, b));
    case Closure(_, c) =>
      CountTells(m, name, Taken, c);
      RightShut(ToldE(m, name, Taken, c));
  }

  lemma LitTells()
    ensures Right(Told(Zero(), true, true, false))
  {
  }

  lemma ArgPlaced(m: Modes, name: string, callee: Option<Expr>, i: nat, e: Expr)
    ensures CountArg(m, name, callee, i, e) == Placed(m, name, Passed(m, callee, i), e)
  {
    hide Count;
    if IsBare(name, e) {
      BareCounts(m, name, e);
    }
  }

  lemma {:induction false} ListTells(m: Modes, name: string, callee: Option<Expr>, i: nat, es: Exprs)
    ensures Right(ToldL(m, name, callee, i, es))
    decreases es, 0
  {
    hide Count, Only, Mentions, CountArg, Placed, Right, ReadKinds, MatchKinds;
    LitTells();
    if es.ECons? {
      var how := Passed(m, callee, i);
      CountTells(m, name, how, es.head);
      ListTells(m, name, callee, i + 1, es.tail);
      ArgPlaced(m, name, callee, i, es.head);
      RightAnd(ToldE(m, name, how, es.head), ToldL(m, name, callee, i + 1, es.tail));
    }
  }

  lemma {:induction false} ArmsTell(m: Modes, name: string, arms: Arms)
    ensures Right(ToldArms(m, name, arms))
    decreases arms, 0
  {
    hide Only, Mentions, Count, Placed, Right, ReadKinds, MatchKinds;
    LitTells();
    if arms.Arm? {
      var g, b := ToldE(m, name, Taken, arms.guard), ToldE(m, name, Taken, arms.body);
      CountTells(m, name, Taken, arms.guard);
      CountTells(m, name, Taken, arms.body);
      ArmsTell(m, name, arms.others);
      RightAnd(g, b);
      RightAnd(And(g, b), ToldArms(m, name, arms.others));
    }
  }

  lemma {:induction false} BlockTells(m: Modes, name: string, b: Block)
    ensures Right(ToldB(m, name, b))
    decreases b, 0
  {
    hide Only, Mentions, OnlyS, MentionsS, CountS, Count, Placed, Right, ReadKinds, MatchKinds;
    match b
    case Final(e) =>
      CountTells(m, name, Taken, e);
      assert ToldB(m, name, b) == ToldE(m, name, Taken, e);
    case Then(s, rest) =>
      StmtTells(m, name, s);
      BlockTells(m, name, rest);
      RightAnd(ToldS(m, name, s), ToldB(m, name, rest));
  }

  lemma {:induction false} StmtTells(m: Modes, name: string, s: Stmt)
    ensures Right(ToldS(m, name, s))
    decreases s, 0
  {
    hide Only, Mentions, OnlyL, OnlyTargets, OnlyB, MentionsL, MentionsB, CountL, CountB, Count, Placed, OnlyTarget,
        Right, ReadKinds, MatchKinds;
    match s
    case Let(_, v) =>
      CountTells(m, name, Taken, v);
      assert ToldS(m, name, s) == ToldE(m, name, Taken, v);
    case LetUninit(_) => LitTells();
    case LetElse(_, v, b) =>
      CountTells(m, name, Taken, v);
      BlockTells(m, name, b);
      RightAnd(ToldE(m, name, Taken, v), ToldB(m, name, b));
    case Defer(_, b) =>
      BlockTells(m, name, b);
      assert ToldS(m, name, s) == ToldB(m, name, b);
    case Assign(_, t, v) =>
      TargetTells(m, name, t);
      CountTells(m, name, Taken, v);
      RightAnd(ToldTarget(m, name, t), ToldE(m, name, Taken, v));
    case MultiAssign(ts, vs) =>
      TargetsTell(m, name, 0, ts);
      ListTells(m, name, None, 0, vs);
      RightAnd(ToldTargets(m, name, 0, ts), ToldL(m, name, None, 0, vs));
    case Do(e) =>
      CountTells(m, name, Taken, e);
      assert ToldS(m, name, s) == ToldE(m, name, Taken, e);
  }

  lemma {:induction false} TargetTells(m: Modes, name: string, t: Expr)
    ensures Right(ToldTarget(m, name, t))
    decreases t, 2
  {
    hide AssignTargetRoot, Count, Only, Mentions, Placed, Right, ReadKinds, MatchKinds;
    CountTells(m, name, Replaced, t);
    RootRead(m, name, t);
    KindsAre(Altered);
    assert ToldTarget(m, name, t) == ToldE(m, name, Replaced, t);
  }

  lemma {:induction false} TargetsTell(m: Modes, name: string, i: nat, ts: Exprs)
    ensures Right(ToldTargets(m, name, i, ts))
    decreases ts, 0
  {
    hide Count, OnlyTarget, Mentions, Right, ReadKinds, MatchKinds;
    LitTells();
    if ts.ECons? {
      TargetTells(m, name, ts.head);
      TargetsTell(m, name, i + 1, ts.tail);
      NoCallee(m, name, i, ts.head);
      RightAnd(ToldTarget(m, name, ts.head), ToldTargets(m, name, i + 1, ts.tail));
    }
  }

  lemma NoCallee(m: Modes, name: string, i: nat, e: Expr)
    ensures CountArg(m, name, None, i, e) == Count(m, name, e)
  {
    hide Count;
  }

  /** The three verdicts' meaning: the counters agree exactly if every occurrence is
      in a position of the kind counted. */
  lemma ReadExactly(m: Modes, name: string, e: Expr)
    ensures var c := Count(m, name, e);
      && c.readThrough + c.scrutinee <= c.mentions
      && (!c.captured && c.mentions == c.readThrough <==> OnlyRead(m, name, e))
      && (!c.captured && c.mentions > 0 && c.mentions == c.scrutinee <==>
          OnlyScrutinised(m, name, e) && Mentions({name}, e))
      && (OnlyScrutinised(m, name, e) && Mentions({name}, e) ==> !OnlyRead(m, name, e))
  {
    hide Count, Only, Mentions, Placed;
    CountTells(m, name, Taken, e);
  }

  // ── With an oracle, and without ──────────────────────────────────

  /** The counts differ only in what is read through, and an oracle can only add to it. */
  predicate Lends(c: Counts, d: Counts) {
    c.mentions == d.mentions && c.scrutinee == d.scrutinee && c.captured == d.captured && c.readThrough <= d.readThrough
  }

  function Blind(): Modes {
    ModesOf(None)
  }

  lemma {:induction false} OracleAdds(m: Modes, name: string, e: Expr)
    ensures Lends(Count(Blind(), name, e), Count(m, name, e))
    decreases e, 1
  {
    hide CountL, CountB, CountArms, Blind, Count, Own;
    CountIs(Blind(), name, e);
    CountIs(m, name, e);
    match e
    case Lit =>
    case Name(_) =>
    case Project(o, _) => OracleAdds(m, name, o);
    case Index(o, i) => OracleAdds(m, name, o); OracleAdds(m, name, i);
    case MethodCall(o, _, args) => OracleAdds(m, name, o); OracleAddsL(m, name, None, 0, args);
    case OptionalChain(o, args) => OracleAdds(m, name, o); OracleAddsL(m, name, None, 0, args);
    case Call(c, args) => OracleAdds(m, name, c); OracleAddsL(m, name, Some(c), 0, args);
    case Group(_, items) => OracleAddsL(m, name, None, 0, items);
    case Jump(_, _, v) => OracleAdds(m, name, v);
    case BlockE(_, b) => OracleAddsB(m, name, b);
    case If(_, c, t, f) => OracleAdds(m, name, c); OracleAddsB(m, name, t); OracleAdds(m, name, f);
    case Match(s, arms) => OracleAdds(m, name, s); OracleAddsArms(m, name, arms);
    case Loop(_, _, h, b) => OracleAdds(m, name, h); OracleAddsB(m, name, b);
    case Scoped(_, hs, b) => OracleAddsL(m, name, None, 0, hs); OracleAddsB(m, name, b);
    case Closure(_, c) => OracleAdds(m, name, c);
  }

  lemma OracleAddsArg(m: Modes, name: string, callee: Option<Expr>, i: nat, e: Expr)
    ensures Lends(CountArg(Blind(), name, callee, i, e), CountArg(m, name, callee, i, e))
    decreases e, 2
  {
    hide Count;
    OracleAdds(m, name, e);
    if IsBare(name, e) {
      BareCounts(m, name, e);
    }
  }

  lemma {:induction false} OracleAddsL(m: Modes, name: string, callee: Option<Expr>, i: nat, es: Exprs)
    ensures Lends(CountL(Blind(), name, callee, i, es), CountL(m, name, callee, i, es))
    decreases es, 0
  {
    hide Count, CountArg, Blind, Passed;
    if es.ECons? {
      OracleAddsArg(m, name, callee, i, es.head);
      OracleAddsL(m, name, callee, i + 1, es.tail);
    }
  }

  lemma {:induction false} OracleAddsArms(m: Modes, name: string, arms: Arms)
    ensures Lends(CountArms(Blind(), name, arms), CountArms(m, name, arms))
    decreases arms, 0
  {
    hide Count, Blind;
    if arms.Arm? {
      OracleAdds(m, name, arms.guard);
      OracleAdds(m, name, arms.body);
      OracleAddsArms(m, name, arms.others);
    }
  }

  lemma {:induction false} OracleAddsB(m: Modes, name: string, b: Block)
    ensures Lends(CountB(Blind(), name, b), CountB(m, name, b))
    decreases b, 0
  {
    hide Count, Blind, CountS;
    match b
    case Final(e) => OracleAdds(m, name, e);
    case Then(s, rest) => OracleAddsS(m, name, s); OracleAddsB(m, name, rest);
  }

  lemma {:induction false} OracleAddsS(m: Modes, name: string, s: Stmt)
    ensures Lends(CountS(Blind(), name, s), CountS(m, name, s))
    decreases s, 0
  {
    hide Count, Blind, CountL, CountB;
    match s
    case Let(_, v) => OracleAdds(m, name, v);
    case LetUninit(_) =>
    case LetElse(_, v, b) => OracleAdds(m, name, v); OracleAddsB(m, name, b);
    case Defer(_, b) => OracleAddsB(m, name, b);
    case Assign(_, t, v) => OracleAdds(m, name, t); OracleAdds(m, name, v);
    case MultiAssign(ts, vs) => OracleAddsL(m, name, None, 0, ts); OracleAddsL(m, name, None, 0, vs);
    case Do(e) => OracleAdds(m, name, e);
  }

  /** A verdict without an oracle holds with any. */
  lemma BlindVerdictHolds(m: Modes, name: string, e: Expr)
    ensures OnlyRead(Blind(), name, e) ==> OnlyRead(m, name, e)
    ensures OnlyScrutinised(Blind(), name, e) <==> OnlyScrutinised(m, name, e)
  {
    hide Count, Only, Mentions, Placed, Blind;
    OracleAdds(m, name, e);
    CountTells(m, name, Taken, e);
    CountTells(Blind(), name, Taken, e);
  }

  // ── Runs ─────────────────────────────────────────────────────────

  /** A variable known by one name only, and no closure around that could do more
      with it than `ks`. */
  predicate Watched(w: World, name: string, ks: set<Kind>, env: Env, st: State) {
    name in env && NamesOf(env, env[name]) == {name} && SafeSt(w, Watch(env[name], ks), st)
  }

  /** After a verdict that a binding is only read through, with the callees' modes as
      the oracle or without one, no run takes the binding as a bare value, captures
      it in a closure, matches on it or replaces it. */
  lemma ReadThroughSound(w: World, borrows: Option<Modes>, name: string, e: Expr, env: Env, st: State, fuel: nat,
          k: Kind)
    requires borrows == None || borrows == Some(w.modes)
    requires OnlyRead(ModesOf(borrows), name, e)
    requires Watched(w, name, ReadKinds(), env, st)
    requires k in {Taken, Captured, Scrutinised, Replaced} && Event(env[name], k) !in st.log
    ensures Event(env[name], k) !in Eval(w, Taken, e, env, st, fuel).st.log
  {
    hide Only, SafeV;
    BlindVerdictHolds(w.modes, name, e);
    EvalSafe(w, Watch(env[name], ReadKinds()), {name}, Taken, e, env, st, fuel);
  }

  /** After the nested-scrutinee verdict a run does nothing to the binding but match
      on it, and leaves its value alone. */
  lemma NestedScrutineeSound(w: World, name: string, e: Expr, env: Env, st: State, fuel: nat, k: Kind)
    requires OnlyScrutinised(Blind(), name, e) && Watched(w, name, MatchKinds(), env, st)
    requires k != Scrutinised && Event(env[name], k) !in st.log
    ensures var st' := Eval(w, Taken, e, env, st, fuel).st;
      Event(env[name], k) !in st'.log && env[name] < |st'.store| && st'.store[env[name]] == st.store[env[name]]
  {
    hide Only, SafeV;
    BlindVerdictHolds(w.modes, name, e);
    EvalSafe(w, Watch(env[name], MatchKinds()), {name}, Taken, e, env, st, fuel);
  }
}
