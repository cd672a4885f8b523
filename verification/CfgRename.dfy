/** Renamed identities are lexical identities: in a body without defer whose `if let` and
    let-else bind new names only, two recorded uses carry the same identity exactly
    when they resolve to the same binding. */
module CfgRename {
  import opened Options
  import opened CfgSyntax
  import opened CfgLowering

  // ── Lexical scoping ──────────────────────────────────────────────

  /** A binding: its name, and the construct that introduces it. Site 0 stands
      for everything bound outside the body. */
  datatype Binding = Binding(name: string, site: nat)

  type Env = map<string, nat>

  /** A place in the order of lowering: the next free site, and the names bound so far. */
  datatype Spot = Spot(site: nat, seen: set<string>)

  /** The bindings that the recorded uses of a tree resolve to, in the order of
      lowering, the place behind it, and whether each `if let` and let-else in it binds names
      that were not bound before. */
  datatype Lexed = Lexed(uses: seq<Binding>, next: Spot, novel: bool)

  function Look(env: Env, x: string): Binding {
    Binding(x, if x in env then env[x] else 0)
  }

  function Bind(names: seq<string>, site: nat): (bs: seq<Binding>)
    ensures |bs| == |names|
  {
    seq(|names|, i requires 0 <= i < |names| => Binding(names[i], site))
  }

  function NameSet(names: seq<string>): set<string> {
    set x | x in names
  }

  function Extend(env: Env, names: seq<string>, site: nat): Env {
    env + map x | x in NameSet(names) :: site
  }

  function Join(a: Lexed, b: Lexed): Lexed {
    Lexed(a.uses + b.uses, b.next, a.novel && b.novel)
  }

  function Nothing(n: Spot): Lexed {
    Lexed([], n, true)
  }

  function Past(n: Spot, names: seq<string>): Spot {
    Spot(n.site + 1, n.seen + NameSet(names))
  }

  /** The markers of a pattern's names, bound at the next site. */
  function Intro(names: seq<string>, n: Spot): Lexed {
    Lexed(Bind(names, n.site), Past(n, names), true)
  }

  /** The same for `if let`. */
  function IntroIf(names: seq<string>, n: Spot): Lexed {
    Intro(names, n).(novel := NameSet(names) !! n.seen)
  }

  function LexE(e: Expr, env: Env, n: Spot, cl: Classification): Lexed
    decreases e, 0
  {
    match e
    case Leaf => Nothing(n)
    case Use(x, _) => Lexed([Look(env, x)], n, true)
    case Ops(_, es) => LexEs(es, env, n, cl)
    case BlockE(b) => LexB(b, env, n, cl)
    case If(pat, cond, t, el) =>
      var f := LexE(cond, env, n, cl);
      var g := Join(f, LexThen(pat.names, t, env, f.next, cl));
      (match el case None => g case Some(x) => Join(g, LexE(x, env, g.next, cl)))
    case Match(s, arms) =>
      var f := LexE(s, env, n, cl);
      Join(f, LexArms(arms, env, f.next, cl))
    case While(_, cond, b) =>
      var f := LexE(cond, env, n, cl);
      Join(f, LexB(b, env, f.next, cl))
    case For(_, pat, it, b) =>
      var f := LexE(it, env, n, cl);
      Join(Join(f, Intro(pat.names, f.next)), LexB(b, Extend(env, pat.names, f.next.site), Past(f.next, pat.names), cl))
    case Loop(_, b) => LexB(b, env, n, cl)
    case Break(_, v) => LexE(v, env, n, cl)
    case Continue(_) => Nothing(n)
    case Return(v) => LexE(v, env, n, cl)
    case Question(x) => LexE(x, env, n, cl)
    case Closure(x) => LexE(x, env, n, cl)
    case MethodCall(o, args) =>
      var f := LexE(o, env, n, cl);
      var g := Join(f, LexArgs(args, false, env, f.next, cl));
      Join(g, LexArgs(args, true, env, g.next, cl))
  }

  /** What an `if let` binds is bound in its then-branch. */
  function LexThen(names: seq<string>, t: Block, env: Env, n: Spot, cl: Classification): Lexed
    decreases t, 1
  {
    Join(IntroIf(names, n), LexB(t, Extend(env, names, n.site), Past(n, names), cl))
  }

  function LexEs(es: Exprs, env: Env, n: Spot, cl: Classification): Lexed {
    match es
    case ENil => Nothing(n)
    case ECons(h, t) =>
      var f := LexE(h, env, n, cl);
      Join(f, LexEs(t, env, f.next, cl))
  }

  /** The sink arguments, or the others. */
  function LexArgs(args: Args, sinks: bool, env: Env, n: Spot, cl: Classification): Lexed {
    match args
    case ANil => Nothing(n)
    case ACons(span, v, t) =>
      if (span in cl.sinks) != sinks then LexArgs(t, sinks, env, n, cl)
      else
        var f := LexE(v, env, n, cl);
        Join(f, LexArgs(t, sinks, env, f.next, cl))
  }

  /** Each arm binds its own names. */
  function LexArms(arms: Arms, env: Env, n: Spot, cl: Classification): Lexed {
    match arms
    case NoArm => Nothing(n)
    case Arm(pat, g, b, others) =>
      var env1 := Extend(env, pat.names, n.site);
      var d := Join(Intro(pat.names, n), LexE(g, env1, Past(n, pat.names), cl));
      var f := Join(d, LexE(b, env1, d.next, cl));
      Join(f, LexArms(others, env, f.next, cl))
  }

  /** What a `let` binds is bound in the rest of its block. */
  function LexB(b: Block, env: Env, n: Spot, cl: Classification): Lexed
    decreases b, 0
  {
    match b
    case Done(e) => LexE(e, env, n, cl)
    case Then(s, rest) =>
      match s
      case Let(pat, v) =>
        var f := LexE(v, env, n, cl);
        Join(Join(f, Intro(pat.names, f.next)),
            LexB(rest, Extend(env, pat.names, f.next.site), Past(f.next, pat.names), cl))
      case LetUninit(x) => LexB(rest, Extend(env, [x], n.site), Past(n, [x]), cl)
      case Assign(t, v) =>
        var f := LexE(v, env, n, cl);
        var g := Join(f, LexE(t, env, f.next, cl));
        Join(g, LexB(rest, env, g.next, cl))
      case ExprStmt(e) =>
        var f := LexE(e, env, n, cl);
        Join(f, LexB(rest, env, f.next, cl))
      case LetElse(pat, v, diverge) =>
        var f := LexTried(pat.names, v, env, n, cl);
        var g := Join(f, LexB(diverge, env, f.next, cl));
        Join(g, LexB(rest, Extend(env, pat.names, f.next.site - 1), g.next, cl))
      case _ => Nothing(n)
  }

  /** The value of a let-else, behind which its names are bound, though not in its branch. */
  function LexTried(names: seq<string>, value: Expr, env: Env, n: Spot, cl: Classification): (l: Lexed)
    ensures l.next.site > 0
    decreases value, 1
  {
    var f := LexE(value, env, n, cl);
    Lexed(f.uses, Past(f.next, names), f.novel && NameSet(names) !! f.next.seen)
  }

  // ── The bodies considered ────────────────────────────────────────

  /** Names bound outside: parameters, which the builder is told of, and others
      (functions, constants), which the body must not re-bind. */
  datatype Outer = Outer(params: set<string>, globals: set<string>)

  predicate Bindable(names: seq<string>, v: Outer) {
    forall i :: 0 <= i < |names| ==> names[i] !in v.globals
  }

  predicate NamedE(e: Expr, dom: set<string>, v: Outer) {
    match e
    case Leaf => true
    case Use(x, _) => x in dom || x in v.params || x in v.globals
    case Ops(_, es) => NamedEs(es, dom, v)
    case BlockE(b) => NamedB(b, dom, v)
    case If(pat, cond, t, el) =>
      NamedE(cond, dom, v) && Bindable(pat.names, v) && NamedB(t, dom + NameSet(pat.names), v) &&
          (el.Some? ==> NamedE(el.value, dom, v))
    case Match(s, arms) => NamedE(s, dom, v) && NamedArms(arms, dom, v)
    case While(_, cond, b) => NamedE(cond, dom, v) && NamedB(b, dom, v)
    case For(_, pat, it, b) => NamedE(it, dom, v) && Bindable(pat.names, v) && NamedB(b, dom + NameSet(pat.names), v)
    case Loop(_, b) => NamedB(b, dom, v)
    case Break(_, x) => NamedE(x, dom, v)
    case Continue(_) => true
    case Return(x) => NamedE(x, dom, v)
    case Question(x) => NamedE(x, dom, v)
    case Closure(x) => NamedE(x, dom, v)
    case MethodCall(o, args) => NamedE(o, dom, v) && NamedArgs(args, dom, v)
  }

  predicate NamedEs(es: Exprs, dom: set<string>, v: Outer) {
    match es
    case ENil => true
    case ECons(h, t) => NamedE(h, dom, v) && NamedEs(t, dom, v)
  }

  predicate NamedArgs(args: Args, dom: set<string>, v: Outer) {
    match args
    case ANil => true
    case ACons(_, x, t) => NamedE(x, dom, v) && NamedArgs(t, dom, v)
  }

  predicate NamedArms(arms: Arms, dom: set<string>, v: Outer) {
    match arms
    case NoArm => true
    case Arm(pat, g, b, others) =>
      Bindable(pat.names, v) && NamedE(g, dom + NameSet(pat.names), v) && NamedE(b, dom + NameSet(pat.names), v) &&
          NamedArms(others, dom, v)
  }

  /** No defer; every name used is bound here or outside. */
  predicate NamedB(b: Block, dom: set<string>, v: Outer) {
    match b
    case Done(e) => NamedE(e, dom, v)
    case Then(s, rest) =>
      match s
      case Let(pat, x) => NamedE(x, dom, v) && Bindable(pat.names, v) && NamedB(rest, dom + NameSet(pat.names), v)
      case LetUninit(x) => Bindable([x], v) && NamedB(rest, dom + {x}, v)
      case Assign(t, x) => NamedE(x, dom, v) && NamedE(t, dom, v) && NamedB(rest, dom, v)
      case ExprStmt(e) => NamedE(e, dom, v) && NamedB(rest, dom, v)
      case LetElse(pat, x, diverge) =>
        NamedE(x, dom, v) && Bindable(pat.names, v) && NamedB(diverge, dom, v) &&
            NamedB(rest, dom + NameSet(pat.names), v)
      case _ => false
  }

  // ── Recorded identities ──────────────────────────────────────────

  /** The identities of the recorded uses, in order. */
  function Idents(log: seq<Event>): seq<Ident> {
    if log == [] then []
    else (if log[0].Step? && log[0].use.Some? then [log[0].use.value.binding] else []) + Idents(log[1..])
  }

  lemma {:induction false} IdentsCat(a: seq<Event>, b: seq<Event>)
    ensures Idents(a + b) == Idents(a) + Idents(b)
    decreases |a|
  {
    if a == [] {
      assert a + b == b;
    } else {
      assert (a + b)[1..] == a[1..] + b;
      IdentsCat(a[1..], b);
    }
  }

  lemma {:induction false} NoIdents(log: seq<Event>)
    requires forall ev :: ev in log ==> !ev.Step?
    ensures Idents(log) == []
  {
    if log != [] {
      NoIdents(log[1..]);
    }
  }

  /** Which suffix each binding got. */
  type Names = map<Binding, Suffix>

  /** Each recorded use carries the suffix of the binding it resolves to. */
  ghost predicate Tells(ids: seq<Ident>, uses: seq<Binding>, m: Names) {
    |ids| == |uses| && forall i :: 0 <= i < |ids| ==> uses[i] in m && ids[i] == Ident(uses[i].name, m[uses[i]])
  }

  ghost predicate Sub(m: Names, m1: Names) {
    forall b :: b in m ==> b in m1 && m1[b] == m[b]
  }

  lemma TellsCat(a: seq<Ident>, ua: seq<Binding>, m: Names, b: seq<Ident>, ub: seq<Binding>, m1: Names)
    requires Tells(a, ua, m) && Sub(m, m1) && Tells(b, ub, m1)
    ensures Tells(a + b, ua + ub, m1)
  {
  }

  // ── What renaming keeps ──────────────────────────────────────────

  /** No two bindings of a name share a suffix; suffixes are old and names seen. */
  ghost predicate Apart(r: Ren, n: Spot, m: Names, v: Outer) {
    && (forall b :: b in m ==> b.site < n.site && (m[b].Tag? ==> m[b].id < r.nextId))
    && (forall b :: b in m ==> if b.site == 0 then b.name in v.params || b.name in v.globals else b.name in r.seen)
    && (forall b, b' :: b in m && b' in m && b.name == b'.name && m[b] == m[b'] ==> b == b')
    && v.params <= r.seen
    && (forall i, x :: 0 <= i < |r.stack| && x in r.stack[i].names ==> x in r.seen && x !in v.globals)
    && (forall i :: 0 <= i < |r.stack| ==> r.stack[i].suffix.Tag? && r.stack[i].suffix.id < r.nextId)
    && n.site > 0 && r.seen == n.seen
  }

  /** A visible name is renamed to the suffix of the binding it resolves to. */
  ghost predicate Resolves(r: Ren, env: Env, m: Names, v: Outer) {
    && env.Keys <= r.seen
    && forall x :: x in env || x in v.params || x in v.globals ==>
        Look(env, x) in m && Mangle(r.stack, x) == Ident(x, m[Look(env, x)])
  }

  /** Lowering may add names to frames, but no name that was visible. */
  ghost predicate Grows(r: Ren, r1: Ren, v: Outer) {
    && |r1.stack| >= |r.stack| && r.seen <= r1.seen && r.nextId <= r1.nextId
    && forall i :: 0 <= i < |r.stack| ==>
      && r1.stack[i].suffix == r.stack[i].suffix && r.stack[i].names <= r1.stack[i].names
      && forall x :: x in r1.stack[i].names && x !in r.stack[i].names ==> x !in r.seen && x !in v.globals
  }

  lemma {:induction false} SameMangle(a: seq<RenFrame>, b: seq<RenFrame>, x: string)
    requires |a| == |b|
    requires forall i :: 0 <= i < |a| ==> a[i].suffix == b[i].suffix && (x in a[i].names <==> x in b[i].names)
    ensures Mangle(a, x) == Mangle(b, x)
    decreases |a|
  {
    if a != [] {
      SameMangle(a[..|a| - 1], b[..|b| - 1], x);
    }
  }

  /** Back at the same height, visible names mean what they meant. */
  lemma Keep(r: Ren, r1: Ren, env: Env, m: Names, m1: Names, v: Outer)
    requires Resolves(r, env, m, v) && Grows(r, r1, v) && |r1.stack| == |r.stack| && Sub(m, m1) && v.params <= r.seen
    ensures Resolves(r1, env, m1, v)
  {
    forall x | x in env || x in v.params || x in v.globals
      ensures Look(env, x) in m1 && Mangle(r1.stack, x) == Ident(x, m1[Look(env, x)])
    {
      assert Look(env, x) in m;
      SameMangle(r.stack, r1.stack, x);
    }
  }

  lemma GrowsTrans(r: Ren, r1: Ren, r2: Ren, v: Outer)
    requires Grows(r, r1, v) && Grows(r1, r2, v)
    ensures Grows(r, r2, v)
  {
  }

  /** Dropping frames that were pushed in between. */
  lemma GrowsCut(r: Ren, r1: Ren, v: Outer)
    requires Grows(r, r1, v)
    ensures Grows(r, r1.(stack := r1.stack[..|r.stack|]), v)
  {
  }

  lemma ApartCut(r: Ren, k: nat, n: Spot, m: Names, v: Outer)
    requires Apart(r, n, m, v) && k <= |r.stack|
    ensures Apart(r.(stack := r.stack[..k]), n, m, v)
  {
  }

  // ── Introducing names ────────────────────────────────────────────

  function TopSuffix(r: Ren): Suffix {
    if r.stack == [] then Bare else r.stack[|r.stack| - 1].suffix
  }

  /** The suffixes after names were bound at site `n` with the top frame on. */
  function Named(m: Names, names: seq<string>, n: nat, s: Suffix): Names {
    m + map x | x in NameSet(names) :: Binding(x, n) := s
  }

  lemma {:induction false} NoteAllIs(names: seq<string>, r: Ren)
    ensures var r1 := NoteAll(names, r);
      && r1.seen == r.seen + NameSet(names) && r1.nextId == r.nextId && |r1.stack| == |r.stack|
      && (r.stack != [] ==>
            var top := |r.stack| - 1;
            r1.stack[..top] == r.stack[..top] && r1.stack[top].suffix == r.stack[top].suffix
            && r1.stack[top].names == r.stack[top].names + NameSet(names))
    decreases |names|
  {
    if names != [] {
      NoteAllIs(names[1..], Note(r, names[0]));
      assert NameSet(names) == {names[0]} + NameSet(names[1..]);
    }
  }

  /** A name in the top frame is renamed by it; without frames nothing is renamed. */
  lemma TopMangle(r: Ren, x: string)
    requires r.stack != [] ==> x in r.stack[|r.stack| - 1].names
    ensures Mangle(r.stack, x) == Ident(x, TopSuffix(r))
  {
  }

  /** What the Define markers of a pattern record. */
  lemma {:induction false} DefsIdents(names: seq<string>, span: nat, p: Point, k: nat, r: Ren)
    ensures |Idents(LowerDefs(names, span, p, k, r).log)| == |names|
    ensures forall i :: 0 <= i < |names| ==>
        Idents(LowerDefs(names, span, p, k, r).log)[i] == Ident(names[i], TopSuffix(r))
    ensures LowerDefs(names, span, p, k, r).ren == NoteAll(names, r)
    decreases |names|
  {
    if names != [] {
      var q := Point(p.block, p.off + 1);
      var r1 := Note(r, names[0]);
      var d := LowerDefs(names[1..], span, q, k, r1);
      DefsIdents(names[1..], span, q, k, r1);
      TopMangle(r1, names[0]);
      var log := LowerDefs(names, span, p, k, r).log;
      assert log[1..] == d.log;
    }
  }

  /** The names are new, or come into a frame pushed for them. */
  ghost predicate MayName(r: Ren, names: seq<string>, m: Names, v: Outer) {
    && Bindable(names, v)
    && ((forall x :: x in NameSet(names) ==> x !in r.seen)
        || (r.stack != [] && r.stack[|r.stack| - 1].names == {} && TopSuffix(r).Tag? && forall b :: b in m ==>
            m[b] != TopSuffix(r)))
  }

  /** After names were noted they mean the top frame's bindings, and other names mean what they meant. */
  lemma NotesMangle(names: seq<string>, r: Ren, x: string)
    ensures Mangle(NoteAll(names, r).stack, x) == if x in NameSet(names) then
        Ident(x, TopSuffix(r)) else Mangle(r.stack, x)
  {
    var r1 := NoteAll(names, r);
    NoteAllIs(names, r);
    if x in NameSet(names) {
      TopMangle(r1, x);
    } else {
      forall i | 0 <= i < |r.stack|
        ensures r.stack[i].suffix == r1.stack[i].suffix && (x in r.stack[i].names <==> x in r1.stack[i].names)
      {
        if i < |r.stack| - 1 {
          assert r1.stack[..|r.stack| - 1][i] == r.stack[..|r.stack| - 1][i];
        }
      }
      SameMangle(r.stack, r1.stack, x);
    }
  }

  lemma Introduce(names: seq<string>, r: Ren, env: Env, n: Spot, m: Names, v: Outer)
    requires Apart(r, n, m, v) && Resolves(r, env, m, v) && MayName(r, names, m, v)
    ensures var r1 := NoteAll(names, r); var m1 := Named(m, names, n.site, TopSuffix(r));
      Apart(r1, Past(n, names), m1, v) && Resolves(r1, Extend(env, names, n.site), m1, v) && Sub(m, m1)
  {
    IntroduceApart(names, r, n, m, v);
    IntroduceResolves(names, r, env, n, m, v);
  }

  lemma IntroduceResolves(names: seq<string>, r: Ren, env: Env, n: Spot, m: Names, v: Outer)
    requires Apart(r, n, m, v) && Resolves(r, env, m, v) && Bindable(names, v)
    ensures Resolves(NoteAll(names, r), Extend(env, names, n.site), Named(m, names, n.site, TopSuffix(r)), v)
  {
    hide Mangle, NoteAll, TopSuffix;
    var r1 := NoteAll(names, r);
    var m1 := Named(m, names, n.site, TopSuffix(r));
    NoteAllIs(names, r);
    var env1 := Extend(env, names, n.site);
    forall x | x in env1 || x in v.params || x in v.globals
      ensures Look(env1, x) in m1 && Mangle(r1.stack, x) == Ident(x, m1[Look(env1, x)])
    {
      NotesMangle(names, r, x);
      if x !in NameSet(names) {
        assert Look(env1, x) == Look(env, x) && Look(env, x) in m;
      }
    }
  }

  lemma IntroduceApart(names: seq<string>, r: Ren, n: Spot, m: Names, v: Outer)
    requires Apart(r, n, m, v) && MayName(r, names, m, v)
    ensures Apart(NoteAll(names, r), Past(n, names), Named(m, names, n.site, TopSuffix(r)), v) &&
        Sub(m, Named(m, names, n.site, TopSuffix(r)))
  {
    hide NoteAll, Named, MayName, TopSuffix;
    NoteAllIs(names, r);
    NamedApart(names, r, n, m, v);
    NamedKnown(names, r, n, m, v);
    FramesSeen(names, r, n, m, v);
  }

  /** The bindings after names were bound: old ones, and the new ones with the top suffix. */
  lemma NamedKnown(names: seq<string>, r: Ren, n: Spot, m: Names, v: Outer)
    requires Apart(r, n, m, v)
    ensures var m1 := Named(m, names, n.site, TopSuffix(r));
      && Sub(m, m1)
      && (forall b :: b in m1 ==> b.site < n.site + 1 && (m1[b].Tag? ==> m1[b].id < r.nextId))
      && (forall b :: b in m1 ==> if b.site == 0 then
          b.name in v.params || b.name in v.globals else b.name in r.seen + NameSet(names))
  {
    var m1 := Named(m, names, n.site, TopSuffix(r));
    forall b | b in m1
      ensures b.site < n.site + 1 && (m1[b].Tag? ==> m1[b].id < r.nextId)
      ensures if b.site == 0 then b.name in v.params || b.name in v.globals else b.name in r.seen + NameSet(names)
    {
      assert b in m || (b.name in NameSet(names) && b.site == n.site);
    }
  }

  lemma FramesSeen(names: seq<string>, r: Ren, n: Spot, m: Names, v: Outer)
    requires Apart(r, n, m, v) && MayName(r, names, m, v)
    ensures var r1 := NoteAll(names, r);
      forall i :: 0 <= i < |r1.stack| ==>
        && r1.stack[i].suffix.Tag? && r1.stack[i].suffix.id < r1.nextId
        && forall x :: x in r1.stack[i].names ==> x in r1.seen && x !in v.globals
  {
    hide NoteAll;
    var r1 := NoteAll(names, r);
    NoteAllIs(names, r);
    forall i | 0 <= i < |r1.stack|
      ensures r1.stack[i].suffix.Tag? && r1.stack[i].suffix.id < r1.nextId
      ensures forall x :: x in r1.stack[i].names ==> x in r1.seen && x !in v.globals
    {
      if i < |r.stack| - 1 {
        assert r1.stack[i] == r1.stack[..|r.stack| - 1][i] == r.stack[i];
      } else {
        assert forall x :: x in r1.stack[i].names ==> x in r.stack[i].names || x in NameSet(names);
      }
    }
  }

  lemma NamedApart(names: seq<string>, r: Ren, n: Spot, m: Names, v: Outer)
    requires Apart(r, n, m, v) && MayName(r, names, m, v)
    ensures var m1 := Named(m, names, n.site, TopSuffix(r));
      forall b, b' :: b in m1 && b' in m1 && b.name == b'.name && m1[b] == m1[b'] ==> b == b'
  {
    hide TopSuffix;
    var m1 := Named(m, names, n.site, TopSuffix(r));
    forall b, b' | b in m1 && b' in m1 && b.name == b'.name && m1[b] == m1[b']
      ensures b == b'
    {
      if b in m && b' !in m {
        NotNew(names, r, n, m, v, b);
      } else if b !in m && b' in m {
        NotNew(names, r, n, m, v, b');
      }
    }
  }

  /** An earlier binding of one of the names has another suffix. */
  lemma NotNew(names: seq<string>, r: Ren, n: Spot, m: Names, v: Outer, b: Binding)
    requires Apart(r, n, m, v) && MayName(r, names, m, v) && b in m && b.name in NameSet(names)
    ensures m[b] != TopSuffix(r)
  {
  }

  lemma PushApart(r: Ren, kind: SuffixKind, n: Spot, m: Names, v: Outer)
    requires Apart(r, n, m, v)
    ensures var r1 := PushFrame(r, kind);
        Apart(r1, n, m, v) && TopSuffix(r1) == Tag(kind, r.nextId) && forall b :: b in m ==> m[b] != TopSuffix(r1)
  {
  }

  lemma PushResolves(r: Ren, kind: SuffixKind, env: Env, m: Names, v: Outer)
    requires Resolves(r, env, m, v)
    ensures Resolves(PushFrame(r, kind), env, m, v)
  {
    forall x | x in env || x in v.params || x in v.globals
      ensures Look(env, x) in m && Mangle(PushFrame(r, kind).stack, x) == Ident(x, m[Look(env, x)])
    {
      assert PushFrame(r, kind).stack[..|r.stack|] == r.stack;
    }
  }

  lemma GrowsPush(names: seq<string>, r: Ren, kind: SuffixKind, v: Outer)
    ensures Grows(r, NoteAll(names, PushFrame(r, kind)), v)
  {
    var r0 := PushFrame(r, kind);
    var r1 := NoteAll(names, r0);
    NoteAllIs(names, r0);
    forall i | 0 <= i < |r.stack|
      ensures r1.stack[i] == r.stack[i]
    {
      assert r1.stack[i] == r1.stack[..|r.stack|][i] == r0.stack[..|r.stack|][i];
    }
  }

  lemma GrowsNew(names: seq<string>, r: Ren, v: Outer)
    requires Bindable(names, v) && forall x :: x in NameSet(names) ==> x !in r.seen
    ensures Grows(r, NoteAll(names, r), v)
  {
    var r1 := NoteAll(names, r);
    NoteAllIs(names, r);
    forall i | 0 <= i < |r.stack| - 1
      ensures r1.stack[i] == r.stack[i]
    {
      assert r1.stack[i] == r1.stack[..|r.stack| - 1][i] == r.stack[..|r.stack| - 1][i];
    }
  }

  /** `let` and uninitialised `let`: a frame of their own if a name was seen. */
  lemma LetNames(names: seq<string>, r: Ren, env: Env, n: Spot, m: Names, v: Outer) returns (m1: Names)
    requires Apart(r, n, m, v) && Resolves(r, env, m, v) && Bindable(names, v)
    ensures var r0 := ShadowIfSeen(names, r); var r1 := NoteAll(names, r0);
      && Apart(r1, Past(n, names), m1, v) && Resolves(r1, Extend(env, names, n.site), m1, v) && Sub(m, m1) &&
          Grows(r, r1, v)
      && m1 == Named(m, names, n.site, TopSuffix(r0))
  {
    hide Apart, Resolves, NoteAll, Grows;
    var r0 := ShadowIfSeen(names, r);
    m1 := Named(m, names, n.site, TopSuffix(r0));
    if AnySeen(names, r) {
      PushApart(r, Sh, n, m, v);
      PushResolves(r, Sh, env, m, v);
      GrowsPush(names, r, Sh, v);
      Introduce(names, r0, env, n, m, v);
    } else {
      GrowsNew(names, r, v);
      Introduce(names, r0, env, n, m, v);
    }
  }

  // ── The induction ────────────────────────────────────────────────

  /** Lowering from `r` to `f` keeps what is kept, and records the bindings of `l`. */
  ghost predicate Renamed(r: Ren, f: Frag, l: Lexed, m: Names, m1: Names, v: Outer) {
    Apart(f.ren, l.next, m1, v) && Grows(r, f.ren, v) && Sub(m, m1) && Tells(Idents(f.log), l.uses, m1)
  }

  lemma RenamedCat(r: Ren, f: Frag, l: Lexed, m: Names, m1: Names, g: Frag, k: Lexed, m2: Names, v: Outer)
    requires Renamed(r, f, l, m, m1, v) && Renamed(f.ren, g, k, m1, m2, v)
    ensures Renamed(r, Cat(f, g), Join(l, k), m, m2, v)
  {
    IdentsCat(f.log, g.log);
    TellsCat(Idents(f.log), l.uses, m1, Idents(g.log), k.uses, m2);
    GrowsTrans(r, f.ren, g.ren, v);
  }

  lemma RenamedNone(r: Ren, p: Point, k: nat, n: Spot, m: Names, v: Outer)
    requires Apart(r, n, m, v)
    ensures Renamed(r, Frag([], p, k, r), Nothing(n), m, m, v)
  {
  }

  /** Edges and marks record nothing. */
  lemma RenamedLog(r: Ren, f: Frag, l: Lexed, m: Names, m1: Names, v: Outer, g: Frag)
    requires Renamed(r, f, l, m, m1, v) && Idents(g.log) == Idents(f.log) && g.ren == f.ren
    ensures Renamed(r, g, l, m, m1, v)
  {
  }

  lemma JumpIdents(a: seq<Event>, b: seq<Event>, js: seq<Event>)
    requires forall ev :: ev in js ==> !ev.Step?
    ensures Idents(js + b) == Idents(b) && Idents(a + js) == Idents(a) && Idents(a + js + b) == Idents(a + b)
  {
    NoIdents(js);
    IdentsCat(js, b);
    IdentsCat(a, js);
    IdentsCat(a + js, b);
    IdentsCat(a, b);
    assert Idents(a) + [] == Idents(a) && [] + Idents(b) == Idents(b);
  }

  ghost predicate NoItems(c: Ctx) {
    forall i :: 0 <= i < |c.frames| ==> c.frames[i] == []
  }

  lemma {:induction false} NoBodies(frames: seq<seq<Item>>, depth: nat, err: bool)
    requires forall i :: 0 <= i < |frames| ==> frames[i] == []
    ensures Bodies(frames, depth, err) == []
  {
    if |frames| > depth {
      NoBodies(frames[..|frames| - 1], depth, err);
    }
  }

  lemma NoTargetBodies(c: Ctx, o: Outcome)
    requires o != Normal && NoItems(c)
    ensures TargetOf(c, o).Some? ==> TargetOf(c, o).value.bodies == []
  {
    match o
    case Ret => NoBodies(c.frames, 0, true);
    case Brk(l) => if Resolve(c.loops, l).Some? { NoBodies(c.frames, c.loops[Resolve(c.loops, l).value].depth, false); }
    case Cont(l) => if Resolve(c.loops, l).Some? { NoBodies(c.frames, c.loops[Resolve(c.loops, l).value].depth, false);
        }
  }

  lemma RenExit(r: Ren, f: Frag, o: Outcome, c: Ctx, l: Lexed, m: Names, m1: Names, v: Outer)
    requires o != Normal && NoItems(c) && Renamed(r, f, l, m, m1, v)
    ensures Renamed(r, LowerExit(f, o, c), l, m, m1, v)
  {
    hide Renamed, TargetOf;
    NoTargetBodies(c, o);
    var g := LowerExit(f, o, c);
    match TargetOf(c, o) {
      case None =>
        assert g.log == f.log + [];
        JumpIdents(f.log, [], []);
      case Some(t) =>
        var u := Unwind(o, c, f.out, f.next, f.ren);
        assert u == LowerChain(t.bodies, c, f.out, f.next, f.ren) == Frag([], f.out, f.next, f.ren);
        assert f.log + u.log == f.log;
        JumpIdents(f.log, [], [Jump(u.out, t.dst, t.back)]);
    }
    RenamedLog(r, f, l, m, m1, v, g);
  }

  lemma {:induction false} RenE(e: Expr, env: Env, c: Ctx, p: Point, k: nat, r: Ren, n: Spot, m: Names, v: Outer)
    returns (m1: Names)
    requires NamedE(e, env.Keys, v) && LexE(e, env, n, c.cl).novel && NoItems(c) && Apart(r, n, m, v) &&
        Resolves(r, env, m, v)
    ensures Renamed(r, LowerE(e, c, p, k, r), LexE(e, env, n, c.cl), m, m1, v)
    decreases SizeE(e), 2
  {
    hide Apart, Resolves, Renamed, NoItems;
    match e
    case Leaf => m1 := m; RenamedNone(r, p, k, n, m, v);
    case Use(x, span) => m1 := m; RenUse(x, span, env, c, p, k, r, n, m, v);
    case Ops(_, es) => m1 := RenEs(es, env, c, p, k, r, n, m, v);
    case BlockE(b) => m1 := RenBlock(b, env, c, p, k, r, n, m, v);
    case If(_, _, _, _) => m1 := RenIf(e, env, c, p, k, r, n, m, v);
    case Match(_, _) => m1 := RenMatch(e, env, c, p, k, r, n, m, v);
    case While(_, _, _) => m1 := RenWhile(e, env, c, p, k, r, n, m, v);
    case For(_, _, _, _) => m1 := RenFor(e, env, c, p, k, r, n, m, v);
    case Loop(_, _) => m1 := RenLoop(e, env, c, p, k, r, n, m, v);
    case Break(l, x) =>
      m1 := RenE(x, env, c, p, k, r, n, m, v);
      RenExit(r, LowerE(x, c, p, k, r), Brk(l), c, LexE(x, env, n, c.cl), m, m1, v);
    case Continue(l) =>
      m1 := m;
      RenamedNone(r, p, k, n, m, v);
      RenExit(r, Frag([], p, k, r), Cont(l), c, Nothing(n), m, m, v);
    case Return(x) =>
      m1 := RenE(x, env, c, p, k, r, n, m, v);
      RenExit(r, LowerE(x, c, p, k, r), Ret, c, LexE(x, env, n, c.cl), m, m1, v);
    case Question(_) => m1 := RenQuestion(e, env, c, p, k, r, n, m, v);
    case Closure(x) =>
      var f := LowerE(x, c, Point(k, 0), k + 2, r);
      m1 := RenE(x, env, c, Point(k, 0), k + 2, r, n, m, v);
      SideIdents(p, k, f, c.inSink, LeavesE(x, Labels(c.loops)) == {});
      RenamedLog(r, f, LexE(x, env, n, c.cl), m, m1, v, LowerE(e, c, p, k, r));
    case MethodCall(_, _) => m1 := RenCall(e, env, c, p, k, r, n, m, v);
  }

  lemma SideIdents(p: Point, k: nat, f: Frag, nested: bool, closed: bool)
    ensures Idents(Side(p, k, f, nested, closed).log) == Idents(f.log)
  {
    var a := [Jump(p, k, false), Jump(p, k + 1, false)];
    var b := [SinkMark(Point(k, 0), k + 2, f.next, nested, closed)];
    JumpIdents([], f.log, a);
    JumpIdents(a + f.log, [], b);
  }

  lemma RenUse(x: string, span: nat, env: Env, c: Ctx, p: Point, k: nat, r: Ren, n: Spot, m: Names, v: Outer)
    requires NamedE(Use(x, span), env.Keys, v) && Apart(r, n, m, v) && Resolves(r, env, m, v)
    ensures Renamed(r, LowerE(Use(x, span), c, p, k, r), LexE(Use(x, span), env, n, c.cl), m, m, v)
  {
    var ev := Step(p, Some(Rename(r, LeafUse(c.cl, x, span))));
    assert [ev][1..] == [];
    assert Idents([ev]) == [Mangle(r.stack, x)];
  }

  /** After a lowering at the same height, ready for the next. */
  lemma Next(r: Ren, f: Frag, l: Lexed, env: Env, m: Names, m1: Names, v: Outer)
    requires Resolves(r, env, m, v) && v.params <= r.seen && Renamed(r, f, l, m, m1, v) && |f.ren.stack| == |r.stack|
    ensures Resolves(f.ren, env, m1, v) && Apart(f.ren, l.next, m1, v) && v.params <= f.ren.seen
  {
    Keep(r, f.ren, env, m, m1, v);
  }

  lemma ParamsSeen(r: Ren, n: Spot, m: Names, v: Outer)
    requires Apart(r, n, m, v)
    ensures v.params <= r.seen
  {
  }

  lemma {:induction false} RenEs(es: Exprs, env: Env, c: Ctx, p: Point, k: nat, r: Ren, n: Spot, m: Names, v: Outer)
    returns (m1: Names)
    requires NamedEs(es, env.Keys, v) && LexEs(es, env, n, c.cl).novel && NoItems(c) && Apart(r, n, m, v) &&
        Resolves(r, env, m, v)
    ensures Renamed(r, LowerEs(es, c, p, k, r), LexEs(es, env, n, c.cl), m, m1, v)
    decreases SizeEs(es), 0
  {
    hide Apart, Resolves, Renamed, NoItems, LowerE, LexE, NamedE;
    ParamsSeen(r, n, m, v);
    match es
    case ENil => m1 := m; RenamedNone(r, p, k, n, m, v);
    case ECons(h, t) =>
      var f := LowerE(h, c, p, k, r);
      var l := LexE(h, env, n, c.cl);
      var m0 := RenE(h, env, c, p, k, r, n, m, v);
      Next(r, f, l, env, m, m0, v);
      m1 := RenEs(t, env, c, f.out, f.next, f.ren, l.next, m0, v);
      RenamedCat(r, f, l, m, m0, LowerEs(t, c, f.out, f.next, f.ren), LexEs(t, env, l.next, c.cl), m1, v);
  }

  lemma {:induction false} RenArgs(args: Args, env: Env, c: Ctx, p: Point, k: nat, r: Ren, n: Spot, m: Names, v: Outer)
    returns (m1: Names)
    requires NamedArgs(args, env.Keys, v) && LexArgs(args, false, env, n, c.cl).novel && NoItems(c) &&
        Apart(r, n, m, v) && Resolves(r, env, m, v)
    ensures Renamed(r, LowerArgs(args, c, p, k, r), LexArgs(args, false, env, n, c.cl), m, m1, v)
    decreases SizeArgs(args), 0
  {
    hide Apart, Resolves, Renamed, NoItems, LowerE, LexE, NamedE;
    ParamsSeen(r, n, m, v);
    match args
    case ANil => m1 := m; RenamedNone(r, p, k, n, m, v);
    case ACons(span, h, t) =>
      if span in c.cl.sinks {
        m1 := RenArgs(t, env, c, p, k, r, n, m, v);
      } else {
        var f := LowerE(h, c, p, k, r);
        var l := LexE(h, env, n, c.cl);
        var m0 := RenE(h, env, c, p, k, r, n, m, v);
        Next(r, f, l, env, m, m0, v);
        m1 := RenArgs(t, env, c, f.out, f.next, f.ren, l.next, m0, v);
        RenamedCat(r, f, l, m, m0, LowerArgs(t, c, f.out, f.next, f.ren), LexArgs(t, false, env, l.next, c.cl), m1, v);
      }
  }

  lemma {:induction false} RenSinks(args: Args, env: Env, c: Ctx, s: Point, k: nat, r: Ren, n: Spot, m: Names, v: Outer)
    returns (m1: Names)
    requires NamedArgs(args, env.Keys, v) && LexArgs(args, true, env, n, c.cl).novel && NoItems(c) &&
        Apart(r, n, m, v) && Resolves(r, env, m, v)
    ensures Renamed(r, LowerSinks(args, c, s, k, r), LexArgs(args, true, env, n, c.cl), m, m1, v)
    decreases SizeArgs(args), 0
  {
    hide Apart, Resolves, Renamed, NoItems, LowerE, LexE, NamedE;
    ParamsSeen(r, n, m, v);
    match args
    case ANil => m1 := m; RenamedNone(r, s, k, n, m, v);
    case ACons(span, h, t) =>
      if span !in c.cl.sinks {
        m1 := RenSinks(t, env, c, s, k, r, n, m, v);
      } else {
        var f := LowerE(h, c, s, k, r);
        var l := LexE(h, env, n, c.cl);
        var q := Point(s.block, s.off + Steps(f.log, s.block));
        var m0 := RenE(h, env, c, s, k, r, n, m, v);
        Next(r, f, l, env, m, m0, v);
        m1 := RenSinks(t, env, c, q, f.next, f.ren, l.next, m0, v);
        RenamedCat(r, f, l, m, m0, LowerSinks(t, c, q, f.next, f.ren), LexArgs(t, true, env, l.next, c.cl), m1, v);
      }
  }

  lemma {:induction false} NoSinksLex(args: Args, env: Env, n: Spot, cl: Classification)
    requires !HasSink(args, cl)
    ensures LexArgs(args, true, env, n, cl) == Nothing(n)
  {
    if args.ACons? {
      NoSinksLex(args.tail, env, n, cl);
    }
  }

  lemma {:induction false} RenCall(e: Expr, env: Env, c: Ctx, p: Point, k: nat, r: Ren, n: Spot, m: Names, v: Outer)
    returns (m1: Names)
    requires e.MethodCall?
    requires NamedE(e, env.Keys, v) && LexE(e, env, n, c.cl).novel && NoItems(c) && Apart(r, n, m, v) &&
        Resolves(r, env, m, v)
    ensures Renamed(r, LowerE(e, c, p, k, r), LexE(e, env, n, c.cl), m, m1, v)
    decreases SizeE(e), 0
  {
    hide Apart, Resolves, Renamed, LowerArgs, LowerSinks, LexArgs, NamedArgs, LeavesSinks;
    ParamsSeen(r, n, m, v);
    var f := LowerE(e.receiver, c, p, k, r);
    var l := LexE(e.receiver, env, n, c.cl);
    var m0 := RenE(e.receiver, env, c, p, k, r, n, m, v);
    Next(r, f, l, env, m, m0, v);
    var g := LowerArgs(e.actuals, c, f.out, f.next, f.ren);
    var la := LexArgs(e.actuals, false, env, l.next, c.cl);
    m1 := RenArgs(e.actuals, env, c, f.out, f.next, f.ren, l.next, m0, v);
    Next(f.ren, g, la, env, m0, m1, v);
    RenamedCat(r, f, l, m, m0, g, la, m1, v);
    var lk := Join(l, la);
    if !HasSink(e.actuals, c.cl) {
      NoSinksLex(e.actuals, env, lk.next, c.cl);
      assert lk.uses + [] == lk.uses;
    } else {
      var c1 := c.(inSink := true);
      var h := LowerSinks(e.actuals, c1, Point(g.next, 0), g.next + 2, g.ren);
      var ls := LexArgs(e.actuals, true, env, la.next, c.cl);
      var m2 := RenSinks(e.actuals, env, c1, Point(g.next, 0), g.next + 2, g.ren, la.next, m1, v);
      var side := Side(g.out, g.next, h, c.inSink, LeavesSinks(e.actuals, c.cl, Labels(c.loops)) == {});
      SideIdents(g.out, g.next, h, c.inSink, LeavesSinks(e.actuals, c.cl, Labels(c.loops)) == {});
      RenamedLog(g.ren, h, ls, m1, m2, v, side);
      RenamedCat(r, Cat(f, g), lk, m, m1, side, ls, m2, v);
      m1 := m2;
    }
  }

  lemma {:induction false} RenQuestion(e: Expr, env: Env, c: Ctx, p: Point, k: nat, r: Ren, n: Spot, m: Names, v: Outer)
    returns (m1: Names)
    requires e.Question?
    requires NamedE(e, env.Keys, v) && LexE(e, env, n, c.cl).novel && NoItems(c) && Apart(r, n, m, v) &&
        Resolves(r, env, m, v)
    ensures Renamed(r, LowerE(e, c, p, k, r), LexE(e, env, n, c.cl), m, m1, v)
    decreases SizeE(e), 0
  {
    hide Apart, Resolves, Renamed;
    var f := LowerE(e.inner, c, p, k, r);
    m1 := RenE(e.inner, env, c, p, k, r, n, m, v);
    NoTargetBodies(c, Ret);
    assert Unwind(Ret, c, f.out, f.next, f.ren) == Frag([], f.out, f.next, f.ren);
    var js := [Jump(f.out, c.exit, false), Jump(f.out, f.next, false)];
    assert LowerE(e, c, p, k, r).log == f.log + js by { assert f.log + [] == f.log; }
    JumpIdents(f.log, [], js);
    RenamedLog(r, f, LexE(e.inner, env, n, c.cl), m, m1, v, LowerE(e, c, p, k, r));
  }

  /** The names of an `if let`, when they are new. */
  lemma NewNames(pat: Pat, env: Env, p: Point, k: nat, r: Ren, n: Spot, m: Names, v: Outer) returns (m1: Names)
    requires Bindable(pat.names, v) && IntroIf(pat.names, n).novel && Apart(r, n, m, v) && Resolves(r, env, m, v)
    ensures var d := LowerDefs(pat.names, pat.span, p, k, r);
      && Renamed(r, d, IntroIf(pat.names, n), m, m1, v) && Resolves(d.ren, Extend(env, pat.names, n.site), m1, v)
      && v.params <= d.ren.seen
  {
    hide Resolves, Grows, NoteAll, Renamed, LowerDefs, Mangle;
    assert r.seen == n.seen;
    hide Apart;
    GrowsNew(pat.names, r, v);
    Introduce(pat.names, r, env, n, m, v);
    m1 := Named(m, pat.names, n.site, TopSuffix(r));
    DefsRenamed(pat, p, k, r, r, n, m, m1, v);
    ParamsSeen(NoteAll(pat.names, r), Past(n, pat.names), m1, v);
  }

  /** The then-branch of an `if let` that binds new names. */
  lemma {:induction false} RenThen(pat: Pat, t: Block, env: Env, c: Ctx, k: nat, r: Ren, n: Spot, m: Names, v: Outer)
    returns (m1: Names)
    requires Bindable(pat.names, v) && NamedB(t, env.Keys + NameSet(pat.names), v) &&
        LexThen(pat.names, t, env, n, c.cl).novel
    requires NoItems(c) && Apart(r, n, m, v) && Resolves(r, env, m, v)
    ensures Renamed(r, LowerThen(pat, t, c, k, r), LexThen(pat.names, t, env, n, c.cl), m, m1, v)
    decreases SizeB(t), 3
  {
    hide Apart, Resolves, Renamed, NoItems, LowerBlock, LexB, NamedB, NoteAll, LowerDefs, Bindable;
    var d := LowerDefs(pat.names, pat.span, Point(k, 0), k + 1, r);
    var ld := IntroIf(pat.names, n);
    var env1 := Extend(env, pat.names, n.site);
    var m0 := NewNames(pat, env, Point(k, 0), k + 1, r, n, m, v);
    FromRenamed(r, d, ld, m, m0, v);
    assert env1.Keys == env.Keys + NameSet(pat.names);
    var g := LowerBlock(t, c, d.out, k + 1, d.ren);
    m1 := RenBlock(t, env1, c, d.out, k + 1, d.ren, Past(n, pat.names), m0, v);
    RenamedCat(r, d, ld, m, m0, g, LexB(t, env1, Past(n, pat.names), c.cl), m1, v);
  }

  /** The condition, and the then-branch behind it. */
  function ToThen(e: Expr, c: Ctx, p: Point, k: nat, r: Ren): Frag
    requires e.If?
  {
    var f := LowerE(e.cond, c, p, k, r);
    Cat(f, Enter(f.out, f.next, LowerThen(e.pat, e.thenBranch, c, f.next, f.ren)))
  }

  function LexToThen(e: Expr, env: Env, n: Spot, cl: Classification): Lexed
    requires e.If?
  {
    var l := LexE(e.cond, env, n, cl);
    Join(l, LexThen(e.pat.names, e.thenBranch, env, l.next, cl))
  }

  lemma {:induction false} RenToThen(e: Expr, env: Env, c: Ctx, p: Point, k: nat, r: Ren, n: Spot, m: Names, v: Outer)
    returns (m1: Names)
    requires e.If? && NamedE(e.cond, env.Keys, v) && Bindable(e.pat.names, v) &&
        NamedB(e.thenBranch, env.Keys + NameSet(e.pat.names), v)
    requires LexToThen(e, env, n, c.cl).novel && NoItems(c) && Apart(r, n, m, v) && Resolves(r, env, m, v)
    ensures var f := ToThen(e, c, p, k, r); var l := LexToThen(e, env, n, c.cl);
      Renamed(r, f, l, m, m1, v) && Apart(f.ren, l.next, m1, v) && Resolves(f.ren, env, m1, v)
    decreases SizeE(e), 0
  {
    hide Apart, Resolves, Renamed, NoItems, LowerE, LexE, NamedE, LowerThen, LexThen, NamedB, Bindable;
    ParamsSeen(r, n, m, v);
    var f := LowerE(e.cond, c, p, k, r);
    var l := LexE(e.cond, env, n, c.cl);
    var m0 := RenE(e.cond, env, c, p, k, r, n, m, v);
    Next(r, f, l, env, m, m0, v);
    var th := LowerThen(e.pat, e.thenBranch, c, f.next, f.ren);
    var lt := LexThen(e.pat.names, e.thenBranch, env, l.next, c.cl);
    m1 := RenThen(e.pat, e.thenBranch, env, c, f.next, f.ren, l.next, m0, v);
    Next(f.ren, th, lt, env, m0, m1, v);
    JumpIdents([], th.log, [Jump(f.out, f.next, false)]);
    RenamedLog(f.ren, th, lt, m0, m1, v, Enter(f.out, f.next, th));
    RenamedCat(r, f, l, m, m0, Enter(f.out, f.next, th), lt, m1, v);
  }

  lemma {:induction false} RenIf(e: Expr, env: Env, c: Ctx, p: Point, k: nat, r: Ren, n: Spot, m: Names, v: Outer)
    returns (m1: Names)
    requires e.If?
    requires NamedE(e, env.Keys, v) && LexE(e, env, n, c.cl).novel && NoItems(c) && Apart(r, n, m, v) &&
        Resolves(r, env, m, v)
    ensures Renamed(r, LowerE(e, c, p, k, r), LexE(e, env, n, c.cl), m, m1, v)
    decreases SizeE(e), 1
  {
    hide Apart, Resolves, Renamed, NoItems, LowerThen, LexThen, NamedB, Bindable;
    m1 := RenToThen(e, env, c, p, k, r, n, m, v);
    var f := LowerE(e.cond, c, p, k, r);
    var k1 := ToThen(e, c, p, k, r);
    var lk := LexToThen(e, env, n, c.cl);
    if e.elseBranch.None? {
      JumpIdents(k1.log, [], [Jump(k1.out, k1.next, false), Jump(f.out, k1.next, false)]);
      RenamedLog(r, k1, lk, m, m1, v, LowerE(e, c, p, k, r));
    } else {
      var m2 := RenElse(e.elseBranch.value, f.out, env, c, k1, r, lk, m, m1, v);
      m1 := m2;
    }
  }

  lemma {:induction false} RenElse(x: Expr, q: Point, env: Env, c: Ctx, k: Frag, r: Ren, l: Lexed, m: Names, m0: Names,
          v: Outer) returns (m1: Names)
    requires NamedE(x, env.Keys, v) && LexE(x, env, l.next, c.cl).novel && NoItems(c) && Renamed(r, k, l, m, m0, v) &&
        Apart(k.ren, l.next, m0, v) && Resolves(k.ren, env, m0, v)
    ensures var h := LowerE(x, c, Point(k.next + 1, 0), k.next + 2, k.ren);
      Renamed(r, Merge(k, [Jump(k.out, k.next, false)], Branch(q, k.next, k.next + 1, h)),
          Join(l, LexE(x, env, l.next, c.cl)), m, m1, v)
    decreases SizeE(x), 3
  {
    hide Apart, Resolves, Renamed, NoItems, LowerE, LexE, NamedE;
    var h := LowerE(x, c, Point(k.next + 1, 0), k.next + 2, k.ren);
    var lh := LexE(x, env, l.next, c.cl);
    m1 := RenE(x, env, c, Point(k.next + 1, 0), k.next + 2, k.ren, l.next, m0, v);
    RenamedCat(r, k, l, m, m0, h, lh, m1, v);
    BranchIdents(q, k.next, k.next + 1, h);
    var b := Branch(q, k.next, k.next + 1, h);
    JumpIdents(k.log, b.log, [Jump(k.out, k.next, false)]);
    IdentsCat(k.log, b.log);
    IdentsCat(k.log, h.log);
    RenamedLog(r, Cat(k, h), Join(l, lh), m, m1, v, Merge(k, [Jump(k.out, k.next, false)], b));
  }

  lemma BranchIdents(q: Point, merge: nat, k: nat, f: Frag)
    ensures Idents(Branch(q, merge, k, f).log) == Idents(f.log)
  {
    JumpIdents([], f.log, [Jump(q, k, false)]);
    JumpIdents([Jump(q, k, false)] + f.log, [], [Jump(f.out, merge, false)]);
  }

  lemma {:induction false} RenMatch(e: Expr, env: Env, c: Ctx, p: Point, k: nat, r: Ren, n: Spot, m: Names, v: Outer)
    returns (m1: Names)
    requires e.Match?
    requires NamedE(e, env.Keys, v) && LexE(e, env, n, c.cl).novel && NoItems(c) && Apart(r, n, m, v) &&
        Resolves(r, env, m, v)
    ensures Renamed(r, LowerE(e, c, p, k, r), LexE(e, env, n, c.cl), m, m1, v)
    decreases SizeE(e), 0
  {
    hide Apart, Resolves, Renamed, NoItems, LowerArms, LexArms, NamedArms;
    ParamsSeen(r, n, m, v);
    var f := LowerE(e.scrutinee, c, p, k, r);
    var l := LexE(e.scrutinee, env, n, c.cl);
    var m0 := RenE(e.scrutinee, env, c, p, k, r, n, m, v);
    Next(r, f, l, env, m, m0, v);
    var g := LowerArms(e.arms, c, f.out, f.next, f.next + 1, f.ren);
    var la := LexArms(e.arms, env, l.next, c.cl);
    m1 := RenArms(e.arms, env, c, f.out, f.next, f.next + 1, f.ren, l.next, m0, v);
    RenamedCat(r, f, l, m, m0, g, la, m1, v);
    MatchIdents(e, c, p, k, r, f, g);
    RenamedLog(r, Cat(f, g), Join(l, la), m, m1, v, LowerE(e, c, p, k, r));
  }

  lemma MatchIdents(e: Expr, c: Ctx, p: Point, k: nat, r: Ren, f: Frag, g: Frag)
    requires e.Match? && f == LowerE(e.scrutinee, c, p, k, r) &&
        g == LowerArms(e.arms, c, f.out, f.next, f.next + 1, f.ren)
    ensures Idents(LowerE(e, c, p, k, r).log) == Idents(Cat(f, g).log) && LowerE(e, c, p, k, r).ren == g.ren
  {
    if e.arms.NoArm? {
      JumpIdents(f.log, [], [Jump(f.out, f.next, false)]);
      assert f.log + [] == f.log;
    } else {
      JumpIdents(f.log, g.log, []);
    }
  }

  lemma {:induction false} RenArms(arms: Arms, env: Env, c: Ctx, q: Point, merge: nat, k: nat, r: Ren, n: Spot,
          m: Names, v: Outer) returns (m1: Names)
    requires NamedArms(arms, env.Keys, v) && LexArms(arms, env, n, c.cl).novel && NoItems(c) && Apart(r, n, m, v) &&
        Resolves(r, env, m, v)
    ensures Renamed(r, LowerArms(arms, c, q, merge, k, r), LexArms(arms, env, n, c.cl), m, m1, v)
    decreases SizeArms(arms), 1
  {
    hide Apart, Resolves, Renamed, NoItems, LowerArm, LexE, NamedE;
    ParamsSeen(r, n, m, v);
    match arms
    case NoArm => m1 := m; RenamedNone(r, Point(merge, 0), k, n, m, v);
    case Arm(pat, guard, body, others) =>
      var a := LowerArm(pat, guard, body, c, k, r);
      var l := LexArm(arms, env, n, c.cl);
      var m0 := RenArm(arms, env, c, k, r, n, m, v);
      BranchIdents(q, merge, k, a);
      var b := Branch(q, merge, k, a).(ren := PopFrame(a.ren));
      PopRenamed(r, a, l, m, m0, v, b);
      Next(r, b, l, env, m, m0, v);
      var g := LowerArms(others, c, q, merge, a.next, PopFrame(a.ren));
      m1 := RenArms(others, env, c, q, merge, a.next, PopFrame(a.ren), l.next, m0, v);
      RenamedCat(r, b, l, m, m0, g, LexArms(others, env, l.next, c.cl), m1, v);
      assert LowerArms(arms, c, q, merge, k, r) == Cat(b, g);
  }

  function LexArm(arms: Arms, env: Env, n: Spot, cl: Classification): Lexed
    requires arms.Arm?
  {
    var env1 := Extend(env, arms.pat.names, n.site);
    var d := Join(Intro(arms.pat.names, n), LexE(arms.guard, env1, Past(n, arms.pat.names), cl));
    Join(d, LexE(arms.body, env1, d.next, cl))
  }

  /** Dropping the frame of an arm or loop. */
  lemma PopRenamed(r: Ren, a: Frag, l: Lexed, m: Names, m1: Names, v: Outer, b: Frag)
    requires Renamed(r, a, l, m, m1, v) && |a.ren.stack| == |r.stack| + 1
    requires b.ren == PopFrame(a.ren) && Idents(b.log) == Idents(a.log)
    ensures Renamed(r, b, l, m, m1, v)
  {
    GrowsCut(r, a.ren, v);
    ApartCut(a.ren, |r.stack|, l.next, m1, v);
  }

  /** The markers of a pattern, once its names may be bound under `r0`. */
  lemma DefsRenamed(pat: Pat, p: Point, k: nat, r: Ren, r0: Ren, n: Spot, m: Names, m1: Names, v: Outer)
    requires var r1 := NoteAll(pat.names, r0); Apart(r1, Past(n, pat.names), m1, v) && Sub(m, m1) && Grows(r, r1, v)
    requires m1 == Named(m, pat.names, n.site, TopSuffix(r0))
    ensures var d := LowerDefs(pat.names, pat.span, p, k, r0);
      Renamed(r, d, Intro(pat.names, n), m, m1, v) && d.ren == NoteAll(pat.names, r0)
  {
    hide Apart, Grows, NoteAll, LowerDefs, TopSuffix;
    DefsIdents(pat.names, pat.span, p, k, r0);
    var uses := Bind(pat.names, n.site);
    forall i | 0 <= i < |pat.names|
      ensures uses[i] in m1 && m1[uses[i]] == TopSuffix(r0)
    {
      assert pat.names[i] in NameSet(pat.names);
    }
  }

  /** The names of an arm or a `for`, in a frame of their own. */
  lemma FrameNames(pat: Pat, kind: SuffixKind, env: Env, p: Point, k: nat, r: Ren, n: Spot, m: Names, v: Outer)
    returns (m1: Names)
    requires Bindable(pat.names, v) && Apart(r, n, m, v) && Resolves(r, env, m, v)
    ensures var d := LowerDefs(pat.names, pat.span, p, k, PushFrame(r, kind));
      && Renamed(r, d, Intro(pat.names, n), m, m1, v) && Resolves(d.ren, Extend(env, pat.names, n.site), m1, v)
      && v.params <= d.ren.seen
  {
    hide Apart, Resolves, Grows, NoteAll, Renamed, LowerDefs, Mangle;
    var r0 := PushFrame(r, kind);
    PushApart(r, kind, n, m, v);
    PushResolves(r, kind, env, m, v);
    GrowsPush(pat.names, r, kind, v);
    Introduce(pat.names, r0, env, n, m, v);
    m1 := Named(m, pat.names, n.site, TopSuffix(r0));
    DefsRenamed(pat, p, k, r, r0, n, m, m1, v);
    ParamsSeen(NoteAll(pat.names, r0), Past(n, pat.names), m1, v);
  }

  lemma {:induction false} RenArm(arms: Arms, env: Env, c: Ctx, k: nat, r: Ren, n: Spot, m: Names, v: Outer)
    returns (m1: Names)
    requires arms.Arm? && NamedArms(arms, env.Keys, v) && LexArm(arms, env, n, c.cl).novel && NoItems(c) &&
        Apart(r, n, m, v) && Resolves(r, env, m, v)
    ensures Renamed(r, LowerArm(arms.pat, arms.guard, arms.body, c, k, r), LexArm(arms, env, n, c.cl), m, m1, v)
    decreases SizeArms(arms), 0
  {
    hide Apart, Resolves, Renamed, NoItems, LowerE, LexE, NamedE, NoteAll, LowerDefs, PushFrame, Bindable;
    var d := LowerDefs(arms.pat.names, arms.pat.span, Point(k, 0), k + 1, PushFrame(r, InArm));
    var ld := Intro(arms.pat.names, n);
    var env1 := Extend(env, arms.pat.names, n.site);
    var m0 := FrameNames(arms.pat, InArm, env, Point(k, 0), k + 1, r, n, m, v);
    FromRenamed(r, d, ld, m, m0, v);
    var g := LowerE(arms.guard, c, d.out, k + 1, d.ren);
    var lg := LexE(arms.guard, env1, Past(n, arms.pat.names), c.cl);
    assert env1.Keys == env.Keys + NameSet(arms.pat.names);
    var m2 := RenE(arms.guard, env1, c, d.out, k + 1, d.ren, Past(n, arms.pat.names), m0, v);
    Next(d.ren, g, lg, env1, m0, m2, v);
    var h := LowerE(arms.body, c, g.out, g.next, g.ren);
    var lh := LexE(arms.body, env1, lg.next, c.cl);
    m1 := RenE(arms.body, env1, c, g.out, g.next, g.ren, lg.next, m2, v);
    RenamedCat(r, d, ld, m, m0, g, lg, m2, v);
    RenamedCat(r, Cat(d, g), Join(ld, lg), m, m2, h, lh, m1, v);
    LogAssoc(d.log, g.log, h.log);
  }

  lemma LogAssoc(a: seq<Event>, b: seq<Event>, c: seq<Event>)
    ensures (a + b) + c == a + (b + c)
  {
  }

  lemma FromRenamed(r: Ren, f: Frag, l: Lexed, m: Names, m1: Names, v: Outer)
    requires Renamed(r, f, l, m, m1, v)
    ensures Apart(f.ren, l.next, m1, v)
  {
  }

  // ── Loops and blocks ─────────────────────────────────────────────

  /** A loop records its head and its body. */
  lemma LoopIdents(k: nat, h: Frag, g: Frag, r: Ren)
    requires h.next > 0
    ensures Idents(LoopBack(k, h, g, r).log) == Idents(h.log) + Idents(g.log)
  {
    JumpIdents(h.log + g.log, [], [Jump(g.out, k, true), LoopMark(Point(k, 0), g.next, h.next - 1)]);
    IdentsCat(h.log, g.log);
  }

  lemma HeadingIdents(p: Point, k: nat, f: Frag)
    ensures Idents(Heading(p, k, f).log) == Idents(f.log)
  {
    JumpIdents([], f.log, [Jump(p, k, false)]);
    JumpIdents([Jump(p, k, false)] + f.log, [], [Jump(f.out, f.next, false), Jump(f.out, f.next + 1, false)]);
  }

  lemma NoItemsLoop(c: Ctx, lbl: Label, merge: nat, header: nat)
    requires NoItems(c)
    ensures NoItems(InLoop(c, lbl, merge, header))
  {
  }

  lemma {:induction false} RenWhile(e: Expr, env: Env, c: Ctx, p: Point, k: nat, r: Ren, n: Spot, m: Names, v: Outer)
    returns (m1: Names)
    requires e.While?
    requires NamedE(e, env.Keys, v) && LexE(e, env, n, c.cl).novel && NoItems(c) && Apart(r, n, m, v) &&
        Resolves(r, env, m, v)
    ensures Renamed(r, LowerE(e, c, p, k, r), LexE(e, env, n, c.cl), m, m1, v)
    decreases SizeE(e), 0
  {
    hide Apart, Resolves, Renamed, NoItems, LowerBlock, LexB, NamedB;
    ParamsSeen(r, n, m, v);
    var f := LowerE(e.cond, c, Point(k, 0), k + 1, r);
    var l := LexE(e.cond, env, n, c.cl);
    var m0 := RenE(e.cond, env, c, Point(k, 0), k + 1, r, n, m, v);
    Next(r, f, l, env, m, m0, v);
    var h := Heading(p, k, f);
    var c1 := InLoop(c, e.lbl, h.next - 1, k);
    NoItemsLoop(c, e.lbl, h.next - 1, k);
    var g := LowerBlock(e.body, c1, h.out, h.next, h.ren);
    var lb := LexB(e.body, env, l.next, c.cl);
    m1 := RenBlock(e.body, env, c1, h.out, h.next, h.ren, l.next, m0, v);
    HeadingIdents(p, k, f);
    RenamedLog(r, f, l, m, m0, v, h);
    RenamedCat(r, h, l, m, m0, g, lb, m1, v);
    LoopIdents(k, h, g, g.ren);
    IdentsCat(h.log, g.log);
    var whole := LoopBack(k, h, g, g.ren);
    assert LowerE(e, c, p, k, r) == LowerLoop(Some(e.cond), None, e.lbl, e.body, c, p, k, r) == whole;
    RenamedLog(r, Cat(h, g), Join(l, lb), m, m1, v, whole);
  }

  lemma {:induction false} RenLoop(e: Expr, env: Env, c: Ctx, p: Point, k: nat, r: Ren, n: Spot, m: Names, v: Outer)
    returns (m1: Names)
    requires e.Loop?
    requires NamedE(e, env.Keys, v) && LexE(e, env, n, c.cl).novel && NoItems(c) && Apart(r, n, m, v) &&
        Resolves(r, env, m, v)
    ensures Renamed(r, LowerE(e, c, p, k, r), LexE(e, env, n, c.cl), m, m1, v)
    decreases SizeE(e), 0
  {
    hide Apart, Resolves, Renamed, NoItems, LowerBlock, LexB, NamedB;
    var h := Frag([Jump(p, k, false)], Point(k, 0), k + 2, r);
    var c1 := InLoop(c, e.lbl, h.next - 1, k);
    NoItemsLoop(c, e.lbl, h.next - 1, k);
    var g := LowerBlock(e.body, c1, h.out, h.next, h.ren);
    m1 := RenBlock(e.body, env, c1, h.out, h.next, h.ren, n, m, v);
    LoopIdents(k, h, g, g.ren);
    NoIdents(h.log);
    assert [] + Idents(g.log) == Idents(g.log);
    var whole := LoopBack(k, h, g, g.ren);
    assert LowerE(e, c, p, k, r) == LowerLoop(None, None, e.lbl, e.body, c, p, k, r) == whole;
    RenamedLog(r, g, LexB(e.body, env, n, c.cl), m, m1, v, whole);
  }

  lemma {:induction false} RenFor(e: Expr, env: Env, c: Ctx, p: Point, k: nat, r: Ren, n: Spot, m: Names, v: Outer)
    returns (m1: Names)
    requires e.For?
    requires NamedE(e, env.Keys, v) && LexE(e, env, n, c.cl).novel && NoItems(c) && Apart(r, n, m, v) &&
        Resolves(r, env, m, v)
    ensures Renamed(r, LowerE(e, c, p, k, r), LexE(e, env, n, c.cl), m, m1, v)
    decreases SizeE(e), 0
  {
    hide Apart, Resolves, Renamed, NoItems, LowerBlock, LexB, NamedB, LowerLoop;
    ParamsSeen(r, n, m, v);
    var f := LowerE(e.iterable, c, p, k, r);
    var l := LexE(e.iterable, env, n, c.cl);
    var m0 := RenE(e.iterable, env, c, p, k, r, n, m, v);
    Next(r, f, l, env, m, m0, v);
    var g := LowerLoop(Some(Leaf), Some(e.pat), e.lbl, e.body, c, f.out, f.next, f.ren);
    var lg := Join(Intro(e.pat.names, l.next),
        LexB(e.body, Extend(env, e.pat.names, l.next.site), Past(l.next, e.pat.names), c.cl));
    m1 := RenForLoop(e, env, c, f.out, f.next, f.ren, l.next, m0, v);
    RenamedCat(r, f, l, m, m0, g, lg, m1, v);
    LexAssoc(l, Intro(e.pat.names, l.next),
        LexB(e.body, Extend(env, e.pat.names, l.next.site), Past(l.next, e.pat.names), c.cl));
  }

  lemma LexAssoc(a: Lexed, b: Lexed, c: Lexed)
    ensures Join(a, Join(b, c)) == Join(Join(a, b), c)
  {
    assert a.uses + (b.uses + c.uses) == (a.uses + b.uses) + c.uses;
  }

  lemma {:induction false} RenForLoop(e: Expr, env: Env, c: Ctx, p: Point, k: nat, r: Ren, n: Spot, m: Names, v: Outer)
    returns (m1: Names)
    requires e.For? && Bindable(e.pat.names, v) && NamedB(e.body, env.Keys + NameSet(e.pat.names), v)
    requires LexB(e.body, Extend(env, e.pat.names, n.site), Past(n, e.pat.names), c.cl).novel && NoItems(c) &&
        Apart(r, n, m, v) && Resolves(r, env, m, v)
    ensures Renamed(r, LowerLoop(Some(Leaf), Some(e.pat), e.lbl, e.body, c, p, k, r),
                    Join(Intro(e.pat.names, n), LexB(e.body, Extend(env, e.pat.names, n.site), Past(n, e.pat.names),
                        c.cl)), m, m1, v)
    decreases SizeB(e.body), 3
  {
    hide Apart, Resolves, Renamed, NoItems, LowerBlock, LexB, NamedB, NoteAll;
    var none := Frag([], Point(k, 0), k + 1, r);
    var q := Heading(p, k, none);
    var d := LowerDefs(e.pat.names, e.pat.span, q.out, q.next, PushFrame(r, InFor));
    var ld := Intro(e.pat.names, n);
    var env1 := Extend(env, e.pat.names, n.site);
    var m0 := FrameNames(e.pat, InFor, env, q.out, q.next, r, n, m, v);
    FromRenamed(r, d, ld, m, m0, v);
    assert env1.Keys == env.Keys + NameSet(e.pat.names);
    var h := Cat(q, d);
    var c1 := InLoop(c, e.lbl, h.next - 1, k);
    NoItemsLoop(c, e.lbl, h.next - 1, k);
    var g := LowerBlock(e.body, c1, h.out, h.next, h.ren);
    var lb := LexB(e.body, env1, Past(n, e.pat.names), c.cl);
    m1 := RenBlock(e.body, env1, c1, h.out, h.next, h.ren, Past(n, e.pat.names), m0, v);
    RenamedCat(r, d, ld, m, m0, g, lb, m1, v);
    var whole := LoopBack(k, h, g, PopFrame(g.ren));
    ForIdents(p, k, r, d, g, h);
    assert LowerHead(Some(Leaf), Some(e.pat), c, p, k, r) == h;
    PopRenamed(r, Cat(d, g), Join(ld, lb), m, m1, v, whole);
  }

  lemma ForIdents(p: Point, k: nat, r: Ren, d: Frag, g: Frag, h: Frag)
    requires g.ren.stack != [] && h == Cat(Heading(p, k, Frag([], Point(k, 0), k + 1, r)), d) && h.next > 0
    ensures Idents(LoopBack(k, h, g, PopFrame(g.ren)).log) == Idents(Cat(d, g).log)
  {
    var q := Heading(p, k, Frag([], Point(k, 0), k + 1, r));
    HeadingIdents(p, k, Frag([], Point(k, 0), k + 1, r));
    IdentsCat(q.log, d.log);
    assert [] + Idents(d.log) == Idents(d.log);
    LoopIdents(k, h, g, PopFrame(g.ren));
    IdentsCat(d.log, g.log);
  }

  lemma {:induction false} RenBlock(b: Block, env: Env, c: Ctx, p: Point, k: nat, r: Ren, n: Spot, m: Names, v: Outer)
    returns (m1: Names)
    requires NamedB(b, env.Keys, v) && LexB(b, env, n, c.cl).novel && NoItems(c) && Apart(r, n, m, v) &&
        Resolves(r, env, m, v)
    ensures Renamed(r, LowerBlock(b, c, p, k, r), LexB(b, env, n, c.cl), m, m1, v)
    decreases SizeB(b), 2
  {
    hide Apart, Resolves, NoItems, LexB, NamedB, LowerRest, Grows, Tells;
    m1 := RenRest(b, env, c, p, k, r, n, m, v);
    var f := LowerRest(b, [], c, p, k, r);
    GrowsCut(r, f.ren, v);
    ApartCut(f.ren, |r.stack|, LexB(b, env, n, c.cl).next, m1, v);
  }

  lemma {:induction false} RenRest(b: Block, env: Env, c: Ctx, p: Point, k: nat, r: Ren, n: Spot, m: Names, v: Outer)
    returns (m1: Names)
    requires NamedB(b, env.Keys, v) && LexB(b, env, n, c.cl).novel && NoItems(c) && Apart(r, n, m, v) &&
        Resolves(r, env, m, v)
    ensures Renamed(r, LowerRest(b, [], c, p, k, r), LexB(b, env, n, c.cl), m, m1, v)
    decreases SizeB(b), 1
  {
    hide Apart, Resolves, Renamed, LowerE, LexE, NamedE, LowerPlain;
    ParamsSeen(r, n, m, v);
    var c1 := InScope(c, []);
    assert NoItems(c1);
    match b
    case Done(e) =>
      m1 := RenE(e, env, c1, p, k, r, n, m, v);
      var f := LowerE(e, c1, p, k, r);
      assert FrameBodies([], false) == [];
      assert LowerRest(b, [], c, p, k, r) == f by { assert f.log + [] == f.log; }
    case Then(s, rest) =>
      match s {
        case Let(pat, x) =>
          var env1 := Extend(env, pat.names, LexE(x, env, n, c.cl).next.site);
          assert env1.Keys == env.Keys + NameSet(pat.names);
          m1 := RenLetRest(b, env, c, p, k, r, n, m, v);
        case LetUninit(x) => m1 := RenUninitRest(b, env, c, p, k, r, n, m, v);
        case Assign(t, x) =>
          var xs := ECons(x, ECons(t, ENil));
          AssignNamed(x, t, env, n, c.cl, v);
          AssignLex(x, t, env, n, c.cl);
          m1 := RenStmt(b, Ops(true, xs), LexEs(xs, env, n, c.cl), env, c, p, k, r, n, m, v);
        case ExprStmt(e) => m1 := RenStmt(b, e, LexE(e, env, n, c.cl), env, c, p, k, r, n, m, v);
        case LetElse(_, _, _) => m1 := RenElseRest(b, env, c, p, k, r, n, m, v);
        case _ =>
      }
  }

  lemma AssignNamed(x: Expr, t: Expr, env: Env, n: Spot, cl: Classification, v: Outer)
    requires NamedE(x, env.Keys, v) && NamedE(t, env.Keys, v)
    ensures var e := Ops(true, ECons(x, ECons(t, ENil)));
        NamedE(e, env.Keys, v) && LexE(e, env, n, cl) == LexEs(ECons(x, ECons(t, ENil)), env, n, cl)
  {
    assert NamedEs(ECons(t, ENil), env.Keys, v);
  }

  lemma AssignLex(x: Expr, t: Expr, env: Env, n: Spot, cl: Classification)
    ensures var f := LexE(x, env, n, cl);
        LexEs(ECons(x, ECons(t, ENil)), env, n, cl) == Join(f, LexE(t, env, f.next, cl))
  {
    var f := LexE(x, env, n, cl);
    var g := LexE(t, env, f.next, cl);
    assert LexEs(ECons(t, ENil), env, f.next, cl) == Join(g, Nothing(g.next));
    assert g.uses + [] == g.uses;
  }

  lemma {:induction false} RenStmt(b: Block, e: Expr, l: Lexed, env: Env, c: Ctx, p: Point, k: nat, r: Ren, n: Spot,
          m: Names, v: Outer) returns (m1: Names)
    requires b.Then? && (b.first.Assign? || b.first.ExprStmt?) && e == StmtExpr(b.first) && l == LexE(e, env, n, c.cl)
    requires NamedE(e, env.Keys, v) && NamedB(b.rest, env.Keys, v) && l.novel &&
        LexB(b.rest, env, l.next, c.cl).novel && NoItems(c) && Apart(r, n, m, v) && Resolves(r, env, m, v)
    ensures Renamed(r, LowerRest(b, [], c, p, k, r), Join(l, LexB(b.rest, env, l.next, c.cl)), m, m1, v)
    decreases SizeB(b), 0
  {
    hide Apart, Resolves, Renamed, LowerE, LexE, NamedE, LexB, NamedB;
    ParamsSeen(r, n, m, v);
    StmtExprSize(b.first);
    var c1 := InScope(c, []);
    assert NoItems(c1);
    var f := LowerE(e, c1, p, k, r);
    var m0 := RenE(e, env, c1, p, k, r, n, m, v);
    Next(r, f, l, env, m, m0, v);
    var g := LowerRest(b.rest, [], c, f.out, f.next, f.ren);
    m1 := RenRest(b.rest, env, c, f.out, f.next, f.ren, l.next, m0, v);
    RenamedCat(r, f, l, m, m0, g, LexB(b.rest, env, l.next, c.cl), m1, v);
    assert LowerPlain(b.first, c1, p, k, r) == f by { assert f.log + [] == f.log; }
    assert LowerRest(b, [], c, p, k, r) == Cat(f, g);
  }

  lemma {:induction false} RenLetRest(b: Block, env: Env, c: Ctx, p: Point, k: nat, r: Ren, n: Spot, m: Names, v: Outer)
    returns (m1: Names)
    requires b.Then? && b.first.Let?
    requires NamedB(b, env.Keys, v) && LexB(b, env, n, c.cl).novel && NoItems(c) && Apart(r, n, m, v) &&
        Resolves(r, env, m, v)
    ensures Renamed(r, LowerRest(b, [], c, p, k, r), LexB(b, env, n, c.cl), m, m1, v)
    decreases SizeB(b), 0
  {
    hide Apart, Resolves, Renamed, LowerE, LexE, NamedE, NoteAll, LowerPlain;
    var s := b.first;
    var c1 := InScope(c, []);
    assert NoItems(c1);
    var f := LowerPlain(s, c1, p, k, r);
    var l := LexLet(s, env, n, c.cl);
    var m0 := RenLet(s, env, c1, p, k, r, n, m, v);
    var env1 := Extend(env, s.pat.names, l.next.site - 1);
    assert env1.Keys == env.Keys + NameSet(s.pat.names);
    var g := LowerRest(b.rest, [], c, f.out, f.next, f.ren);
    m1 := RenRest(b.rest, env1, c, f.out, f.next, f.ren, l.next, m0, v);
    RenamedCat(r, f, l, m, m0, g, LexB(b.rest, env1, l.next, c.cl), m1, v);
  }

  function LexLet(s: Stmt, env: Env, n: Spot, cl: Classification): Lexed
    requires s.Let?
  {
    var f := LexE(s.value, env, n, cl);
    Join(f, Intro(s.pat.names, f.next))
  }

  lemma {:induction false} RenLet(s: Stmt, env: Env, c: Ctx, p: Point, k: nat, r: Ren, n: Spot, m: Names, v: Outer)
    returns (m1: Names)
    requires s.Let? && NamedE(s.value, env.Keys, v) && Bindable(s.pat.names, v)
    requires LexLet(s, env, n, c.cl).novel && NoItems(c) && Apart(r, n, m, v) && Resolves(r, env, m, v)
    ensures var f := LowerPlain(s, c, p, k, r); var l := LexLet(s, env, n, c.cl);
      && Renamed(r, f, l, m, m1, v) && l.next.site > 0
      && Apart(f.ren, l.next, m1, v) && Resolves(f.ren, Extend(env, s.pat.names, l.next.site - 1), m1, v)
    decreases SizeS(s), 0
  {
    hide Apart, Resolves, Renamed, LowerE, LexE, NamedE, NoteAll, Grows, ShadowIfSeen;
    ParamsSeen(r, n, m, v);
    var f := LowerE(s.value, c, p, k, r);
    var l := LexE(s.value, env, n, c.cl);
    var m0 := RenE(s.value, env, c, p, k, r, n, m, v);
    Next(r, f, l, env, m, m0, v);
    m1 := LetNames(s.pat.names, f.ren, env, l.next, m0, v);
    var r0 := ShadowIfSeen(s.pat.names, f.ren);
    DefsRenamed(s.pat, f.out, f.next, f.ren, r0, l.next, m0, m1, v);
    RenamedCat(r, f, l, m, m0, LowerIntro(s, f.out, f.next, f.ren), Intro(s.pat.names, l.next), m1, v);
  }

  lemma {:induction false} RenUninitRest(b: Block, env: Env, c: Ctx, p: Point, k: nat, r: Ren, n: Spot, m: Names,
          v: Outer) returns (m1: Names)
    requires b.Then? && b.first.LetUninit?
    requires NamedB(b, env.Keys, v) && LexB(b, env, n, c.cl).novel && NoItems(c) && Apart(r, n, m, v) &&
        Resolves(r, env, m, v)
    ensures Renamed(r, LowerRest(b, [], c, p, k, r), LexB(b, env, n, c.cl), m, m1, v)
    decreases SizeB(b), 0
  {
    hide Apart, Resolves, Renamed, Grows;
    var names := [b.first.name];
    var r1 := NoteAll(names, ShadowIfSeen(names, r));
    var m0 := LetNames(names, r, env, n, m, v);
    var env1 := Extend(env, names, n.site);
    assert env1.Keys == env.Keys + {b.first.name};
    var d := Frag([], p, k, r1);
    UninitRenamed(r, d, names, n, m, m0, v);
    var g := LowerRest(b.rest, [], c, p, k, r1);
    m1 := RenRest(b.rest, env1, c, p, k, r1, Past(n, names), m0, v);
    RenamedCat(r, d, Nothing(Past(n, names)), m, m0, g, LexB(b.rest, env1, Past(n, names), c.cl), m1, v);
    assert LexB(b.rest, env1, Past(n, names), c.cl).uses == [] + LexB(b.rest, env1, Past(n, names), c.cl).uses;
    UninitFrag(b.first, InScope(c, []), p, k, r, r1);
  }

  lemma UninitRenamed(r: Ren, d: Frag, names: seq<string>, n: Spot, m: Names, m1: Names, v: Outer)
    requires Apart(d.ren, Past(n, names), m1, v) && Grows(r, d.ren, v) && Sub(m, m1) && d.log == []
    ensures Renamed(r, d, Nothing(Past(n, names)), m, m1, v)
  {
  }

  lemma UninitFrag(s: Stmt, c: Ctx, p: Point, k: nat, r: Ren, r1: Ren)
    requires s.LetUninit? && r1 == NoteAll([s.name], ShadowIfSeen([s.name], r))
    ensures LowerPlain(s, c, p, k, r) == Frag([], p, k, r1)
  {
    assert LowerE(Leaf, c, p, k, r) == Frag([], p, k, r);
    var r0 := ShadowIfSeen([s.name], r);
    assert [s.name][1..] == [] && NoteAll([], Note(r0, s.name)) == Note(r0, s.name);
  }

  // ── Let-else ─────────────────────────────────────────────────────

  lemma NoneSeen(names: seq<string>, r: Ren, n: Spot, m: Names, v: Outer)
    requires Apart(r, n, m, v) && NameSet(names) !! n.seen
    ensures !AnySeen(names, r)
  {
    forall i | 0 <= i < |names|
      ensures names[i] !in r.seen
    {
      assert names[i] in NameSet(names);
    }
  }

  /** New names change nothing for the names that were there. */
  lemma StillResolves(r: Ren, r1: Ren, names: seq<string>, env: Env, n: Spot, m1: Names, v: Outer)
    requires Resolves(r1, Extend(env, names, n.site), m1, v) && NameSet(names) !! r.seen && Bindable(names, v)
    requires env.Keys <= r.seen && v.params <= r.seen
    ensures Resolves(r1, env, m1, v)
  {
    var env1 := Extend(env, names, n.site);
    assert env.Keys <= env1.Keys;
    forall x | x in env || x in v.params || x in v.globals
      ensures Look(env, x) in m1 && Mangle(r1.stack, x) == Ident(x, m1[Look(env, x)])
    {
      assert x !in NameSet(names);
      assert Look(env1, x) == Look(env, x);
    }
  }

  /** The value of a let-else, with its names noted behind it. */
  lemma {:induction false} RenTried(s: Stmt, env: Env, c: Ctx, p: Point, k: nat, r: Ren, n: Spot, m: Names, v: Outer)
    returns (m1: Names)
    requires s.LetElse? && NamedE(s.value, env.Keys, v) && Bindable(s.pat.names, v)
    requires LexTried(s.pat.names, s.value, env, n, c.cl).novel && NoItems(c) && Apart(r, n, m, v) &&
        Resolves(r, env, m, v)
    ensures var f := LowerE(s.value, c, p, k, r); var l := LexTried(s.pat.names, s.value, env, n, c.cl);
      var r1 := NoteAll(s.pat.names, f.ren);
      && !AnySeen(s.pat.names, f.ren) && Renamed(r, f.(ren := r1), l, m, m1, v) && Apart(r1, l.next, m1, v)
      && Resolves(r1, env, m1, v) && Resolves(r1, Extend(env, s.pat.names, l.next.site - 1), m1, v)
    decreases SizeS(s), 0
  {
    hide Apart, Resolves, LowerE, LexE, NamedE, NoteAll, Grows, AnySeen;
    hide Renamed;
    ParamsSeen(r, n, m, v);
    var names := s.pat.names;
    var f := LowerE(s.value, c, p, k, r);
    var l := LexE(s.value, env, n, c.cl);
    var m0 := RenE(s.value, env, c, p, k, r, n, m, v);
    Next(r, f, l, env, m, m0, v);
    NoneSeen(names, f.ren, l.next, m0, v);
    m1 := LetNames(names, f.ren, env, l.next, m0, v);
    var r1 := NoteAll(names, f.ren);
    var d := Frag([], f.out, f.next, r1);
    UninitRenamed(f.ren, d, names, l.next, m0, m1, v);
    RenamedCat(r, f, l, m, m0, d, Nothing(Past(l.next, names)), m1, v);
    assert f.log + [] == f.log && l.uses + [] == l.uses;
    SameLexed(r, Cat(f, d), Join(l, Nothing(Past(l.next, names))), LexTried(names, s.value, env, n, c.cl), m, m1, v,
        f.(ren := r1));
    Visible(f.ren, env, l.next, m0, v);
    StillResolves(f.ren, r1, names, env, l.next, m1, v);
  }

  lemma Visible(r: Ren, env: Env, n: Spot, m: Names, v: Outer)
    requires Apart(r, n, m, v) && Resolves(r, env, m, v)
    ensures env.Keys <= r.seen && v.params <= r.seen && r.seen == n.seen
  {
  }

  lemma SameLexed(r: Ren, f: Frag, l: Lexed, l1: Lexed, m: Names, m1: Names, v: Outer, g: Frag)
    requires Renamed(r, f, l, m, m1, v) && l1.uses == l.uses && l1.next == l.next && g.log == f.log && g.ren == f.ren
    ensures Renamed(r, g, l1, m, m1, v)
  {
  }

  lemma AsideIdents(f: Frag, g: Frag)
    ensures Idents(Aside(f, g).log) == Idents(f.log + g.log)
  {
    var pass := [Step(f.out, None)];
    JumpIdents(f.log, g.log, [Jump(f.out, f.next, false)]);
    IdentsCat(f.log + [Jump(f.out, f.next, false)] + g.log, pass);
    assert pass[1..] == [];
    assert Idents(pass) == [] + [];
  }

  /** A let-else that binds new names, and what follows it. */
  lemma {:induction false} RenElseRest(b: Block, env: Env, c: Ctx, p: Point, k: nat, r: Ren, n: Spot, m: Names,
          v: Outer) returns (m1: Names)
    requires b.Then? && b.first.LetElse?
    requires NamedB(b, env.Keys, v) && LexB(b, env, n, c.cl).novel && NoItems(c) && Apart(r, n, m, v) &&
        Resolves(r, env, m, v)
    ensures Renamed(r, LowerRest(b, [], c, p, k, r), LexB(b, env, n, c.cl), m, m1, v)
    decreases SizeB(b), 0
  {
    hide Apart, Resolves, Renamed, LowerE, LowerBlock, LexE, NamedE, LexTried, NoteAll, Grows, AnySeen, Bindable;
    var s := b.first;
    var c1 := InScope(c, []);
    assert NoItems(c1);
    var f0 := LowerE(s.value, c1, p, k, r);
    var r1 := NoteAll(s.pat.names, f0.ren);
    var f := f0.(ren := r1);
    var l := LexTried(s.pat.names, s.value, env, n, c.cl);
    var m0 := RenTried(s, env, c1, p, k, r, n, m, v);
    ParamsSeen(r1, l.next, m0, v);
    var g := LowerBlock(s.diverge, c1, Point(f.next, 0), f.next + 1, r1);
    var lg := LexB(s.diverge, env, l.next, c.cl);
    var m2 := RenBlock(s.diverge, env, c1, Point(f.next, 0), f.next + 1, r1, l.next, m0, v);
    RenamedCat(r, f, l, m, m0, g, lg, m2, v);
    var env1 := Extend(env, s.pat.names, l.next.site - 1);
    assert env1.Keys == env.Keys + NameSet(s.pat.names);
    Next(r1, g, lg, env1, m0, m2, v);
    var a := Aside(f0, g);
    AsideIdents(f0, g);
    RenamedLog(r, Cat(f, g), Join(l, lg), m, m2, v, a);
    var h := LowerRest(b.rest, [], c, a.out, a.next, g.ren);
    m1 := RenRest(b.rest, env1, c, a.out, a.next, g.ren, lg.next, m2, v);
    RenamedCat(r, a, Join(l, lg), m, m2, h, LexB(b.rest, env1, lg.next, c.cl), m1, v);
    assert LowerRest(b, [], c, p, k, r) == Cat(a, h);
  }

  /** A let-else that re-binds a visible name notes it before its branch is lowered: a use of
      the name in the branch, which is of the earlier binding, carries that binding's
      identity exactly if it was introduced under the frame that is on top. */
  lemma ElseUse(names: seq<string>, x: string, span: nat, env: Env, c: Ctx, p: Point, k: nat, r: Ren, n: Spot,
          m: Names, v: Outer)
    requires Apart(r, n, m, v) && Resolves(r, env, m, v) && x in names && (x in env || x in v.params)
    ensures var ids := Idents(LowerE(Use(x, span), c, p, k, NoteAll(names, r)).log);
        var uses := LexE(Use(x, span), env, n, c.cl).uses;
      && |ids| == 1 && |uses| == 1 && uses[0] in m
      && (ids[0] == Ident(x, m[uses[0]]) <==> m[uses[0]] == TopSuffix(r))
  {
    hide TopSuffix, Mangle, NoteAll;
    NotesMangle(names, r, x);
    assert x in NameSet(names);
    var ev := Step(p, Some(Rename(NoteAll(names, r), LeafUse(c.cl, x, span))));
    assert [ev][1..] == [];
    assert Idents([ev]) == [Mangle(NoteAll(names, r).stack, x)];
  }

  // ── The theorem ──────────────────────────────────────────────────

  /** For a body without defer that uses only names bound in it or outside it, and whose
      `if let` and let-else bind names that are new where they stand: the recorded uses
      are those of the lexical order, and two of them have the same identity if and only
      if they resolve to the same binding. */
  lemma LexicalIdentities(body: Block, cl: Classification, params: seq<string>, globals: set<string>)
    requires NamedB(body, {}, Outer(NameSet(params), globals))
    requires LexB(body, map[], Spot(1, NameSet(params)), cl).novel
    ensures var ids := Idents(LowerBody(body, cl, params).log);
        var uses := LexB(body, map[], Spot(1, NameSet(params)), cl).uses;
      && |ids| == |uses|
      && (forall i :: 0 <= i < |ids| ==> ids[i].name == uses[i].name)
      && (forall i, j :: 0 <= i < |ids| && 0 <= j < |ids| ==> (ids[i] == ids[j] <==> uses[i] == uses[j]))
  {
    var v := Outer(NameSet(params), globals);
    var c := Ctx(cl, 1, [], [], false);
    var r := Ren([], set i | 0 <= i < |params| :: params[i], 0);
    assert r.seen == NameSet(params);
    var m: Names := map x | x in v.params + v.globals :: Binding(x, 0) := Bare;
    StartOk(r, m, v);
    var env: Env := map[];
    assert env.Keys == {};
    var m1 := RenBlock(body, env, c, Point(0, 0), 2, r, Spot(1, NameSet(params)), m, v);
    var f := LowerBlock(body, c, Point(0, 0), 2, r);
    JumpIdents(f.log, [], [Jump(f.out, 1, false)]);
    SameIffSame(Idents(f.log), LexB(body, env, Spot(1, NameSet(params)), cl), f.ren, m1, v);
  }

  lemma StartOk(r: Ren, m: Names, v: Outer)
    requires r.stack == [] && r.nextId == 0 && r.seen == v.params &&
        m == map x | x in v.params + v.globals :: Binding(x, 0) := Bare
    ensures Apart(r, Spot(1, v.params), m, v) && Resolves(r, map[], m, v)
  {
  }

  lemma SameIffSame(ids: seq<Ident>, l: Lexed, r: Ren, m: Names, v: Outer)
    requires Tells(ids, l.uses, m) && Apart(r, l.next, m, v)
    ensures |ids| == |l.uses| && forall i :: 0 <= i < |ids| ==> ids[i].name == l.uses[i].name
    ensures forall i, j :: 0 <= i < |ids| && 0 <= j < |ids| ==> (ids[i] == ids[j] <==> l.uses[i] == l.uses[j])
  {
  }

  // ── Where identities are shared ──────────────────────────────────

  /** The markers of an `if let` come first in its then-branch. */
  lemma ThenMarkers(pat: Pat, t: Block, env: Env, c: Ctx, k: nat, r: Ren, n: Spot, i: nat)
    requires i < |pat.names|
    ensures var ids := Idents(LowerThen(pat, t, c, k, r).log); var uses := LexThen(pat.names, t, env, n, c.cl).uses;
      i < |ids| && i < |uses| && ids[i] == Ident(pat.names[i], TopSuffix(r)) && uses[i] == Binding(pat.names[i], n.site)
  {
    hide LowerBlock, LexB, TopSuffix, LowerDefs;
    var d := LowerDefs(pat.names, pat.span, Point(k, 0), k + 1, r);
    DefsIdents(pat.names, pat.span, Point(k, 0), k + 1, r);
    IdentsCat(d.log, LowerBlock(t, c, d.out, k + 1, d.ren).log);
  }

  /** For every pattern, branch and context: a variable that an `if let` binds carries the
      identity of an earlier binding if and only if it has its name, and that binding was
      introduced under the frame that is now on top. The two are never the same binding. */
  lemma IfLetShares(pat: Pat, t: Block, env: Env, c: Ctx, k: nat, r: Ren, n: Spot, m: Names, v: Outer, i: nat,
          b: Binding)
    requires Apart(r, n, m, v) && b in m && i < |pat.names|
    ensures var ids := Idents(LowerThen(pat, t, c, k, r).log); var uses := LexThen(pat.names, t, env, n, c.cl).uses;
      && i < |ids| && i < |uses| && uses[i] != b
      && (ids[i] == Ident(b.name, m[b]) <==> pat.names[i] == b.name && m[b] == TopSuffix(r))
  {
    hide LowerThen, LexThen, TopSuffix;
    ThenMarkers(pat, t, env, c, k, r, n, i);
  }

  lemma PrefixIdents(a: seq<Event>, b: seq<Event>)
    requires a <= b
    ensures Idents(a) <= Idents(b)
  {
    assert b == a + b[|a|..];
    IdentsCat(a, b[|a|..]);
  }

  /** The log of an `if` starts with its condition and its then-branch, */
  lemma IfLog(e: Expr, c: Ctx, p: Point, k: nat, r: Ren)
    requires e.If?
    ensures var f := LowerE(e.cond, c, p, k, r);
      Idents(f.log) + Idents(LowerThen(e.pat, e.thenBranch, c, f.next, f.ren).log) <= Idents(LowerE(e, c, p, k, r).log)
  {
    hide LowerThen, Idents;
    var f := LowerE(e.cond, c, p, k, r);
    var th := LowerThen(e.pat, e.thenBranch, c, f.next, f.ren);
    var k1 := Cat(f, Enter(f.out, f.next, th));
    var log := LowerE(e, c, p, k, r).log;
    assert k1.log <= log;
    hide LowerE;
    PrefixIdents(k1.log, log);
    JumpIdents([], th.log, [Jump(f.out, f.next, false)]);
    IdentsCat(f.log, Enter(f.out, f.next, th).log);
  }

  /** and so do the bindings it uses. */
  lemma IfUses(e: Expr, env: Env, n: Spot, cl: Classification)
    requires e.If?
    ensures var l := LexE(e.cond, env, n, cl);
        l.uses + LexThen(e.pat.names, e.thenBranch, env, l.next, cl).uses <= LexE(e, env, n, cl).uses
  {
    hide LexThen;
  }

  /** What was lowered under a frame leaves it on top. */
  lemma SameTop(r: Ren, f: Frag, l: Lexed, m: Names, m1: Names, v: Outer)
    requires Renamed(r, f, l, m, m1, v) && |f.ren.stack| == |r.stack|
    ensures TopSuffix(f.ren) == TopSuffix(r)
  {
  }

  /** What an `if let` records for the i-th variable, in the order of the whole expression. */
  lemma IfMarker(e: Expr, env: Env, c: Ctx, p: Point, k: nat, r: Ren, n: Spot, m: Names, v: Outer, i: nat)
    requires e.If? && i < |e.pat.names| && NoItems(c) && Apart(r, n, m, v) && Resolves(r, env, m, v)
    requires NamedE(e.cond, env.Keys, v) && LexE(e.cond, env, n, c.cl).novel
    ensures var l := LexE(e.cond, env, n, c.cl); var ids := Idents(LowerE(e, c, p, k, r).log);
        var uses := LexE(e, env, n, c.cl).uses;
      var at := |l.uses| + i;
      && at < |ids| && at < |uses| && ids[at] == Ident(e.pat.names[i], TopSuffix(r)) &&
          uses[at] == Binding(e.pat.names[i], l.next.site)
      && (forall b :: b in m ==> b.site < l.next.site)
  {
    hide LowerE, LexE, NamedE, LowerThen, LexThen, Resolves, Renamed, NoItems, TopSuffix, Apart;
    var f := LowerE(e.cond, c, p, k, r);
    var l := LexE(e.cond, env, n, c.cl);
    var m0 := RenE(e.cond, env, c, p, k, r, n, m, v);
    SameTop(r, f, l, m, m0, v);
    Counted(r, f, l, m, m0, v);
    IfLog(e, c, p, k, r);
    IfUses(e, env, n, c.cl);
    ThenMarkers(e.pat, e.thenBranch, env, c, f.next, f.ren, l.next, i);
    Later(r, f, l, m, m0, v);
  }

  /** Bindings known before have earlier sites. */
  lemma Later(r: Ren, f: Frag, l: Lexed, m: Names, m1: Names, v: Outer)
    requires Renamed(r, f, l, m, m1, v)
    ensures forall b :: b in m ==> b.site < l.next.site
  {
  }

  lemma CondNovel(e: Expr, env: Env, n: Spot, cl: Classification, v: Outer)
    requires e.If? && NamedE(e, env.Keys, v) && LexE(e, env, n, cl).novel
    ensures NamedE(e.cond, env.Keys, v) && LexE(e.cond, env, n, cl).novel
  {
    hide NamedB, LexThen;
  }

  /** Two `if let` in a row, in any context: the i-th variable of the first and the j-th of
      the second are different, and carry one identity exactly if they have one name. */
  lemma ReusedNameConflates(e: Expr, x: Expr, env: Env, c: Ctx, p: Point, k: nat, r: Ren, n: Spot, m: Names, v: Outer,
          i: nat, j: nat)
    requires e.If? && x.If? && i < |e.pat.names| && j < |x.pat.names|
    requires NamedE(e, env.Keys, v) && LexE(e, env, n, c.cl).novel && NoItems(c) && Apart(r, n, m, v) &&
        Resolves(r, env, m, v)
    requires NamedE(x.cond, env.Keys, v) && LexE(x.cond, env, LexE(e, env, n, c.cl).next, c.cl).novel
    ensures var f := LowerE(e, c, p, k, r); var l := LexE(e, env, n, c.cl);
      var ids := Idents(f.log); var ids' := Idents(LowerE(x, c, f.out, f.next, f.ren).log);
          var uses' := LexE(x, env, l.next, c.cl).uses;
      var at := |LexE(e.cond, env, n, c.cl).uses| + i; var later := |LexE(x.cond, env, l.next, c.cl).uses| + j;
      && at < |ids| && at < |l.uses| && later < |ids'| && later < |uses'|
      && l.uses[at] != uses'[later] && (ids[at] == ids'[later] <==> e.pat.names[i] == x.pat.names[j])
  {
    hide LowerE, LexE, NamedE, Apart, Resolves, Renamed, NoItems, TopSuffix, Idents;
    var f := LowerE(e, c, p, k, r);
    var l := LexE(e, env, n, c.cl);
    CondNovel(e, env, n, c.cl, v);
    ParamsSeen(r, n, m, v);
    var m1 := RenE(e, env, c, p, k, r, n, m, v);
    SameTop(r, f, l, m, m1, v);
    Next(r, f, l, env, m, m1, v);
    IfMarker(e, env, c, p, k, r, n, m, v, i);
    IfMarker(x, env, c, f.out, f.next, f.ren, l.next, m1, v, j);
    Recorded(r, f, l, m, m1, v, |LexE(e.cond, env, n, c.cl).uses| + i);
  }

  lemma Counted(r: Ren, f: Frag, l: Lexed, m: Names, m1: Names, v: Outer)
    requires Renamed(r, f, l, m, m1, v)
    ensures |Idents(f.log)| == |l.uses|
  {
  }

  lemma Recorded(r: Ren, f: Frag, l: Lexed, m: Names, m1: Names, v: Outer, at: nat)
    requires Renamed(r, f, l, m, m1, v) && at < |l.uses|
    ensures l.uses[at] in m1
  {
  }

  /** `if let x = .. { x }`. */
  function IfLetUse(x: string): Expr {
    If(Pat([x], 0), Leaf, Done(Use(x, 1)), None)
  }

  lemma IfLetIdents(x: string, c: Ctx, p: Point, n: nat, r: Ren)
    requires r.stack == []
    ensures var f := LowerE(IfLetUse(x), c, p, n, r);
        Idents(f.log) == [Ident(x, Bare), Ident(x, Bare)] && f.ren.stack == []
  {
    var leaf := Frag([], p, n, r);
    assert LowerE(Leaf, c, p, n, r) == leaf;
    var t := LowerThen(Pat([x], 0), Done(Use(x, 1)), c, n, r);
    ThenIdents(x, c, n, r);
    var f := LowerE(IfLetUse(x), c, p, n, r);
    var k := Cat(leaf, Enter(p, n, t));
    assert f == Close(k, [Jump(k.out, k.next, false), Jump(p, k.next, false)]);
    hide LowerE, LowerThen;
    assert k.log == [Jump(p, n, false)] + t.log;
    JumpIdents([], t.log, [Jump(p, n, false)]);
    JumpIdents([Jump(p, n, false)] + t.log, [], [Jump(k.out, k.next, false), Jump(p, k.next, false)]);
  }

  lemma ThenIdents(x: string, c: Ctx, n: nat, r: Ren)
    requires r.stack == []
    ensures var t := LowerThen(Pat([x], 0), Done(Use(x, 1)), c, n, r);
        Idents(t.log) == [Ident(x, Bare), Ident(x, Bare)] && t.ren.stack == []
  {
    var d := LowerDefs([x], 0, Point(n, 0), n + 1, r);
    var r1 := Note(r, x);
    assert LowerDefs([x][1..], 0, Point(n, 1), n + 1, r1) == Frag([], Point(n, 1), n + 1, r1);
    assert d == Frag([Step(Point(n, 0), Some(Rename(r1, DefineUse(x, 0))))], Point(n, 1), n + 1, r1);
    var u := Step(d.out, Some(Rename(r1, LeafUse(c.cl, x, 1))));
    var f := LowerE(Use(x, 1), InScope(c, []), d.out, n + 1, r1);
    assert f == Frag([u], Point(n, 2), n + 1, r1);
    var rest := LowerRest(Done(Use(x, 1)), [], c, d.out, n + 1, r1);
    assert FrameBodies([], false) == [];
    assert rest == Cat(f, LowerChain([], c, f.out, f.next, f.ren));
    assert rest.log == [u];
    var t := LowerThen(Pat([x], 0), Done(Use(x, 1)), c, n, r);
    var b := LowerBlock(Done(Use(x, 1)), c, d.out, n + 1, d.ren);
    assert b.log == rest.log;
    assert t == Cat(d, b);
    assert t.log == [d.log[0]] + [u];
    hide LowerThen, LowerRest, LowerE, LowerDefs;
    IdentsCat([d.log[0]], [u]);
    assert Idents([u]) == [Ident(x, Bare)] && Idents([d.log[0]]) == [Ident(x, Bare)];
  }

  /** Two `if let x = .. { x }` in a row: the second and the fourth use are of different
      variables, and all four carry one identity. */
  lemma IfLetConflates(x: string, cl: Classification, params: seq<string>)
    ensures var body := Done(Ops(true, ECons(IfLetUse(x), ECons(IfLetUse(x), ENil))));
      var ids := Idents(LowerBody(body, cl, params).log);
          var uses := LexB(body, map[], Spot(1, NameSet(params)), cl).uses;
      |ids| == 4 && |uses| == 4 && ids[1] == ids[3] && uses[1] != uses[3] &&
          ids == [Ident(x, Bare), Ident(x, Bare), Ident(x, Bare), Ident(x, Bare)]
  {
    TwoIfLets(x, cl, Spot(1, NameSet(params)));
    var es := ECons(IfLetUse(x), ECons(IfLetUse(x), ENil));
    var c := Ctx(cl, 1, [], [], false);
    var c1 := InScope(c, []);
    var r := Ren([], set i | 0 <= i < |params| :: params[i], 0);
    var p := Point(0, 0);
    var f := LowerE(IfLetUse(x), c1, p, 2, r);
    IfLetIdents(x, c1, p, 2, r);
    var g := LowerE(IfLetUse(x), c1, f.out, f.next, f.ren);
    IfLetIdents(x, c1, f.out, f.next, f.ren);
    TwoOperands(IfLetUse(x), IfLetUse(x), c1, p, 2, r);
    var h := LowerE(Ops(true, es), c1, p, 2, r);
    hide LowerE, LowerEs;
    assert FrameBodies([], false) == [];
    assert LowerChain([], c, h.out, h.next, h.ren).log == [];
    var rest := LowerRest(Done(Ops(true, es)), [], c, p, 2, r);
    assert rest == Cat(h, LowerChain([], c, h.out, h.next, h.ren));
    var b := LowerBlock(Done(Ops(true, es)), c, p, 2, r);
    assert b.log == h.log;
    IdentsCat(f.log, g.log);
    JumpIdents(b.log, [], [Jump(b.out, 1, false)]);
  }

  lemma IfLetLexed(x: string, cl: Classification, n: Spot)
    ensures var l := LexE(IfLetUse(x), map[], n, cl);
        l.uses == [Binding(x, n.site), Binding(x, n.site)] && l.next.site == n.site + 1
  {
    var env := Extend(map[], [x], n.site);
    assert x in NameSet([x]);
    assert LexB(Done(Use(x, 1)), env, Past(n, [x]), cl) == LexE(Use(x, 1), env, Past(n, [x]), cl) ==
        Lexed([Binding(x, n.site)], Past(n, [x]), true);
    var t := LexThen([x], Done(Use(x, 1)), map[], n, cl);
    assert t.uses == Bind([x], n.site) + [Binding(x, n.site)];
    assert LexE(Leaf, map[], n, cl) == Nothing(n);
    assert LexE(IfLetUse(x), map[], n, cl) == Join(Nothing(n), t);
  }

  lemma TwoIfLets(x: string, cl: Classification, n: Spot)
    ensures var body := Done(Ops(true, ECons(IfLetUse(x), ECons(IfLetUse(x), ENil))));
      LexB(body, map[], n, cl).uses == [Binding(x, n.site), Binding(x, n.site), Binding(x, n.site + 1),
          Binding(x, n.site + 1)]
  {
    var es := ECons(IfLetUse(x), ENil);
    var f := LexE(IfLetUse(x), map[], n, cl);
    IfLetLexed(x, cl, n);
    var g := LexE(IfLetUse(x), map[], f.next, cl);
    IfLetLexed(x, cl, f.next);
    hide IfLetUse;
    assert LexEs(es, map[], f.next, cl) == Join(g, LexEs(ENil, map[], g.next, cl));
    assert LexEs(es, map[], f.next, cl).uses == g.uses + [];
    assert LexEs(ECons(IfLetUse(x), es), map[], n, cl) == Join(f, LexEs(es, map[], f.next, cl));
    var body := Done(Ops(true, ECons(IfLetUse(x), es)));
    assert LexB(body, map[], n, cl) == LexE(Ops(true, ECons(IfLetUse(x), es)), map[], n, cl) ==
        LexEs(ECons(IfLetUse(x), es), map[], n, cl);
  }

  lemma OperandsLowered(es: Exprs, c: Ctx, p: Point, n: nat, r: Ren)
    ensures LowerE(Ops(true, es), c, p, n, r) == LowerEs(es, c, p, n, r)
  {
    hide LowerEs;
  }

  lemma TwoOperands(a: Expr, b: Expr, c: Ctx, p: Point, n: nat, r: Ren)
    ensures var f := LowerE(a, c, p, n, r);
        LowerE(Ops(true, ECons(a, ECons(b, ENil))), c, p, n, r).log == f.log + LowerE(b, c, f.out, f.next, f.ren).log
  {
    OperandsLowered(ECons(a, ECons(b, ENil)), c, p, n, r);
    hide LowerE;
    var f := LowerE(a, c, p, n, r);
    var g := LowerE(b, c, f.out, f.next, f.ren);
    var last := ECons(b, ENil);
    assert LowerEs(last, c, f.out, f.next, f.ren) == Cat(g, LowerEs(ENil, c, g.out, g.next, g.ren));
    assert LowerEs(ECons(a, last), c, p, n, r) == Cat(f, LowerEs(last, c, f.out, f.next, f.ren));
  }
}
