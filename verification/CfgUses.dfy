/** What the graph records: each use is an identifier of the body, as it was classified, or
    the marker of a name that a pattern introduces; none outside errdefer bodies is missing;
    and what is in closures and sink arguments is recorded in side branches. */
module CfgUses {
  import opened Options
  import opened CfgSyntax
  import opened CfgLowering
  import opened CfgOccurrences
  import opened CfgGraph
  import CfgDominance
  import CfgGood
  import CfgInvariant

  // ── What a lowering records ──────────────────────────────────────

  /** The rename frames that were on at the start, the first number for new ones, and
      whether a new one is on. */
  datatype Start = Start(frames: seq<RenFrame>, first: nat, framed: bool)

  /** What was on at the start is still as it was, below frames pushed since. */
  ghost predicate On(r: Ren, w: Start) {
    && w.first <= r.nextId && Higher(|r.stack|, w)
    && r.stack[..|w.frames|] == w.frames
    && forall i :: |w.frames| <= i < |r.stack| ==>
      r.stack[i].suffix.Tag? && w.first <= r.stack[i].suffix.id < r.nextId
  }

  ghost predicate Higher(height: nat, w: Start) {
    if w.framed then |w.frames| < height else w.frames == []
  }

  /** An identity made since the start. */
  predicate Fresh(id: Ident, w: Start, hi: nat) {
    id.suffix.Tag? && w.first <= id.suffix.id < hi
  }

  /** A name means what it meant at the start, or is bound since; a name that is introduced
      while a new frame is on is bound since. */
  predicate OwnOrOuter(id: Ident, marker: bool, w: Start, hi: nat) {
    Fresh(id, w, hi) || (id == Mangle(w.frames, id.name) && (marker ==> !w.framed))
  }

  predicate Records(ev: Event) {
    ev.Step? && ev.use.Some?
  }

  /** The mark of a side branch that only leads to the exit, outside sink arguments. */
  predicate MarksSide(ev: Event) {
    ev.SinkMark? && ev.closed && !ev.nested
  }

  predicate InSide(mk: Event, b: nat)
    requires MarksSide(mk)
  {
    b == mk.src.block || mk.lo <= b < mk.hi
  }

  /** All that is known of the body, and the scopes around. */
  datatype World = World(all: set<Occ>, cl: Classification, start: Start)

  /** The use is that occurrence, under an identity of its own or from outside. */
  predicate Right(u: UseSite, o: Occ, w: World, hi: nat) {
    Says(u, o, w.cl) && OwnOrOuter(u.binding, o.Introduced?, w.start, hi)
  }

  ghost predicate IsRight(u: UseSite, w: World, hi: nat) {
    exists o :: o in w.all && Right(u, o, w, hi)
  }

  predicate IsUse(ev: Event, o: Occ, w: World, hi: nat) {
    Records(ev) && Right(ev.use.value, o, w, hi)
  }

  /** The occurrence is recorded; one that is to be aside, in a side branch. */
  ghost predicate Found(log: seq<Event>, o: Occ, w: World, hi: nat) {
    exists ev :: ev in log && IsUse(ev, o, w, hi) &&
      (o.Aside? ==> exists mk :: mk in log && MarksSide(mk) && InSide(mk, ev.src.block))
  }

  /** The log has what is needed, and nothing else than what there is. */
  ghost predicate Told(log: seq<Event>, need: set<Occ>, w: World, hi: nat) {
    && (forall ev :: ev in log && Records(ev) ==> IsRight(ev.use.value, w, hi))
    && (forall o :: o in need ==> Found(log, o, w, hi))
  }

  /** Where a lowering starts. */
  datatype At = At(p: Point, n: nat, r: Ren)

  function After(f: Frag): At {
    At(f.out, f.next, f.ren)
  }

  /** The block is the first one, or minted since. */
  predicate Inside(b: nat, a: At, next: nat) {
    b == a.p.block || a.n <= b < next
  }

  /** A lowering from `a` to `f` records that, in its own blocks. */
  ghost predicate Shown(a: At, f: Frag, need: set<Occ>, w: World) {
    && On(f.ren, w.start) && a.r.nextId <= f.ren.nextId
    && a.n <= f.next && Inside(f.out.block, a, f.next)
    && (forall ev :: ev in f.log && Records(ev) ==> Inside(ev.src.block, a, f.next))
    && Told(f.log, need, w, f.ren.nextId)
  }

  lemma FoundIn(log: seq<Event>, o: Occ, w: World, lo: nat, more: seq<Event>, hi: nat)
    requires Found(log, o, w, lo) && lo <= hi && Keeps(log, more)
    ensures Found(more, o, w, hi)
  {
    hide Says;
    var ev :| ev in log && IsUse(ev, o, w, lo) &&
        (o.Aside? ==> exists mk :: mk in log && MarksSide(mk) && InSide(mk, ev.src.block));
    assert ev in more && IsUse(ev, o, w, hi);
  }

  /** Uses and marks of one log are in the other. */
  ghost predicate Keeps(a: seq<Event>, b: seq<Event>) {
    forall ev :: ev in a && (Records(ev) || ev.SinkMark?) ==> ev in b
  }

  lemma ToldLater(log: seq<Event>, need: set<Occ>, w: World, lo: nat, hi: nat)
    requires lo <= hi && Told(log, need, w, lo)
    ensures Told(log, need, w, hi)
  {
    hide Says, Found;
    forall ev | ev in log && Records(ev)
      ensures IsRight(ev.use.value, w, hi)
    {
      assert IsRight(ev.use.value, w, lo);
      var o :| o in w.all && Right(ev.use.value, o, w, lo);
      assert Right(ev.use.value, o, w, hi);
    }
    forall o | o in need
      ensures Found(log, o, w, hi)
    {
      FoundIn(log, o, w, lo, log, hi);
    }
  }

  lemma ToldCat(a: seq<Event>, need: set<Occ>, b: seq<Event>, need': set<Occ>, w: World, hi: nat)
    requires Told(a, need, w, hi) && Told(b, need', w, hi)
    ensures Told(a + b, need + need', w, hi)
  {
    hide IsRight, Found;
    forall o | o in need + need'
      ensures Found(a + b, o, w, hi)
    {
      FoundIn(if o in need then a else b, o, w, hi, a + b, hi);
    }
  }

  /** The recorded uses are the same, and marks are kept. */
  ghost predicate SameUses(a: seq<Event>, b: seq<Event>) {
    Keeps(a, b) && forall ev :: ev in b && Records(ev) ==> ev in a
  }

  lemma ToldSame(a: seq<Event>, need: set<Occ>, w: World, hi: nat, b: seq<Event>, part: set<Occ>)
    requires Told(a, need, w, hi) && SameUses(a, b) && part <= need
    ensures Told(b, part, w, hi)
  {
    hide IsRight, Found;
    forall o | o in part
      ensures Found(b, o, w, hi)
    {
      FoundIn(a, o, w, hi, b, hi);
    }
  }

  /** One lowering, then the next from a block that is one of the first's, or new. */
  lemma ShownCat(a: At, f: Frag, x: set<Occ>, a1: At, g: Frag, y: set<Occ>, w: World)
    requires Shown(a, f, x, w) && Shown(a1, g, y, w)
    requires f.ren.nextId <= a1.r.nextId && f.next <= a1.n && Inside(a1.p.block, a, a1.n)
    ensures Shown(a, Cat(f, g), x + y, w)
  {
    hide On, Told;
    ToldLater(f.log, x, w, f.ren.nextId, g.ren.nextId);
    ToldCat(f.log, x, g.log, y, w, g.ren.nextId);
  }

  lemma ShownAs(a: At, f: Frag, need: set<Occ>, w: World, g: Frag, part: set<Occ>)
    requires Shown(a, f, need, w) && SameUses(f.log, g.log) && g.ren == f.ren && part <= need
    requires f.next <= g.next && Inside(g.out.block, a, g.next)
    ensures Shown(a, g, part, w)
  {
    hide Told, On;
    ToldSame(f.log, need, w, f.ren.nextId, g.log, part);
  }

  lemma ShownNone(a: At, w: World)
    requires On(a.r, w.start)
    ensures Shown(a, Frag([], a.p, a.n, a.r), {}, w)
  {
  }

  /** Dropping frames, or noting names, behind a lowering. */
  lemma ShownRen(a: At, f: Frag, need: set<Occ>, w: World, r1: Ren)
    requires Shown(a, f, need, w) && On(r1, w.start) && f.ren.nextId <= r1.nextId
    ensures Shown(a, f.(ren := r1), need, w)
  {
    hide Told, On;
    ToldLater(f.log, need, w, f.ren.nextId, r1.nextId);
  }

  /** A lowering within another: from a block and a state that came later. */
  lemma Within(a: At, a0: At, f: Frag, need: set<Occ>, w: World)
    requires Shown(a0, f, need, w) && a.r.nextId <= a0.r.nextId && a.n <= a0.n && Inside(a0.p.block, a, a0.n)
    ensures Shown(a, f, need, w)
  {
    hide Told, On;
  }

  /** What was lowered into a side branch. */
  lemma SideShown(p: Point, n: nat, r: Ren, f: Frag, need: set<Occ>, w: World, nested: bool, closed: bool)
    requires Shown(At(Point(n, 0), n + 2, r), f, need, w)
    ensures Shown(At(p, n, r), Side(p, n, f, nested, closed),
        need + (if !nested && closed then Asides(need) else {}), w)
  {
    hide On, Right;
    var g := Side(p, n, f, nested, closed);
    var a := At(p, n, r);
    Within(a, At(Point(n, 0), n + 2, r), f, need, w);
    assert SameUses(f.log, g.log);
    ShownAs(a, f, need, w, g, need);
    if !nested && closed {
      var mk := SinkMark(Point(n, 0), n + 2, f.next, nested, closed);
      assert mk in g.log && MarksSide(mk);
      forall o | o in Asides(need)
        ensures Found(g.log, o, w, g.ren.nextId)
      {
        var u := Used(o.name, o.span);
        assert u in need;
        assert Found(f.log, u, w, f.ren.nextId);
        var ev :| ev in f.log && IsUse(ev, u, w, f.ren.nextId);
        assert ev in g.log && InSide(mk, ev.src.block);
        assert IsUse(ev, o, w, f.ren.nextId) by { SameSaid(ev.use.value, u, o, w, f.ren.nextId); }
      }
    }
  }

  lemma SameSaid(u: UseSite, o: Occ, o': Occ, w: World, hi: nat)
    requires Right(u, o, w, hi) && o.Used? && o' == Aside(o.name, o.span)
    ensures Right(u, o', w, hi)
  {
  }

  // ── Rename frames ────────────────────────────────────────────────

  lemma OnPush(r: Ren, kind: SuffixKind, w: Start)
    requires On(r, w)
    ensures On(PushFrame(r, kind), w) && PushFrame(r, kind).nextId > r.nextId
  {
    assert PushFrame(r, kind).stack[..|w.frames|] == r.stack[..|w.frames|];
  }

  lemma OnCut(r: Ren, k: nat, w: Start)
    requires On(r, w) && k <= |r.stack| && Higher(k, w)
    ensures On(r.(stack := r.stack[..k]), w)
  {
    assert r.stack[..k][..|w.frames|] == r.stack[..|w.frames|];
  }

  lemma OnNote(r: Ren, x: string, w: Start)
    requires On(r, w)
    ensures On(Note(r, x), w) && Note(r, x).nextId == r.nextId
  {
    assert Note(r, x).stack[..|w.frames|] == r.stack[..|w.frames|];
  }

  lemma {:induction false} OnNotes(names: seq<string>, r: Ren, w: Start)
    requires On(r, w)
    ensures On(NoteAll(names, r), w) && NoteAll(names, r).nextId == r.nextId
    decreases |names|
  {
    if names != [] {
      OnNote(r, names[0], w);
      OnNotes(names[1..], Note(r, names[0]), w);
    }
  }

  lemma {:induction false} MangleIs(stack: seq<RenFrame>, x: string, w: Start, hi: nat)
    requires |w.frames| <= |stack| && stack[..|w.frames|] == w.frames
    requires forall i :: |w.frames| <= i < |stack| ==> stack[i].suffix.Tag? && w.first <= stack[i].suffix.id < hi
    ensures OwnOrOuter(Mangle(stack, x), false, w, hi)
    decreases |stack|
  {
    if |stack| > |w.frames| {
      var front := stack[..|stack| - 1];
      assert front[..|w.frames|] == stack[..|w.frames|];
      if x !in stack[|stack| - 1].names {
        MangleIs(front, x, w, hi);
      }
    } else {
      assert stack[..|stack|] == stack;
    }
  }

  lemma NotedIs(r: Ren, x: string, w: Start)
    requires On(r, w)
    ensures OwnOrOuter(Mangle(Note(r, x).stack, x), true, w, r.nextId)
  {
  }

  // ── The induction ────────────────────────────────────────────────

  function DueBodies(bs: seq<Block>, cl: Classification, inSink: bool): set<Occ> {
    if bs == [] then {} else DueB(bs[0], cl, inSink) + DueBodies(bs[1..], cl, inSink)
  }

  /** Those of the deferred bodies of a scope. */
  function DueItems(items: seq<Item>, cl: Classification, inSink: bool): set<Occ> {
    if items == [] then {}
    else
      (if items[|items| - 1].err then {} else DueB(items[|items| - 1].body, cl, inSink)) +
      DueItems(items[..|items| - 1], cl, inSink)
  }

  lemma {:induction false} PickDue(items: seq<Item>, cl: Classification, inSink: bool)
    ensures DueBodies(Pick(items, false), cl, inSink) == DueItems(items, cl, inSink)
  {
    if items != [] {
      var last := items[|items| - 1];
      var front := Pick(items[..|items| - 1], false);
      PickDue(items[..|items| - 1], cl, inSink);
      if !last.err {
        assert ([last.body] + front)[1..] == front;
      } else {
        assert [] + front == front;
      }
    }
  }

  lemma FrameDue(items: seq<Item>, cl: Classification, inSink: bool)
    ensures DueBodies(FrameBodies(items, false), cl, inSink) == DueItems(items, cl, inSink)
  {
    PickDue(items, cl, inSink);
    assert [] + Pick(items, false) == Pick(items, false);
  }

  ghost predicate ItemsIn(items: seq<Item>, all: set<Occ>) {
    forall i :: 0 <= i < |items| ==> OccB(items[i].body, true) <= all
  }

  ghost predicate BodiesIn(bs: seq<Block>, all: set<Occ>) {
    forall i :: 0 <= i < |bs| ==> OccB(bs[i], true) <= all
  }

  /** The cleanup bodies of the scopes around are part of the body. */
  ghost predicate CtxIn(c: Ctx, w: World) {
    c.cl == w.cl && forall i :: 0 <= i < |c.frames| ==> ItemsIn(c.frames[i], w.all)
  }

  lemma {:induction false} PickIn(items: seq<Item>, err: bool, all: set<Occ>)
    requires ItemsIn(items, all)
    ensures BodiesIn(Pick(items, err), all)
  {
    if items != [] {
      PickIn(items[..|items| - 1], err, all);
    }
  }

  lemma FrameBodiesIn(items: seq<Item>, err: bool, all: set<Occ>)
    requires ItemsIn(items, all)
    ensures BodiesIn(FrameBodies(items, err), all)
  {
    PickIn(items, true, all);
    PickIn(items, false, all);
  }

  lemma {:induction false} UnwoundIn(frames: seq<seq<Item>>, depth: nat, err: bool, all: set<Occ>)
    requires forall i :: 0 <= i < |frames| ==> ItemsIn(frames[i], all)
    ensures BodiesIn(Bodies(frames, depth, err), all)
  {
    if |frames| > depth {
      UnwoundIn(frames[..|frames| - 1], depth, err, all);
      FrameBodiesIn(frames[|frames| - 1], err, all);
    }
  }

  lemma TargetIn(c: Ctx, o: Outcome, w: World)
    requires o != Normal && CtxIn(c, w)
    ensures TargetOf(c, o).Some? ==> BodiesIn(TargetOf(c, o).value.bodies, w.all)
  {
    match o
    case Ret => UnwoundIn(c.frames, 0, true, w.all);
    case Brk(l) =>
      if Resolve(c.loops, l).Some? {
        UnwoundIn(c.frames, c.loops[Resolve(c.loops, l).value].depth, false, w.all);
      }
    case Cont(l) =>
      if Resolve(c.loops, l).Some? {
        UnwoundIn(c.frames, c.loops[Resolve(c.loops, l).value].depth, false, w.all);
      }
  }

  lemma ScopeIn(c: Ctx, items: seq<Item>, w: World)
    requires CtxIn(c, w) && ItemsIn(items, w.all)
    ensures CtxIn(InScope(c, items), w)
  {
    var c1 := InScope(c, items);
    forall i | 0 <= i < |c1.frames|
      ensures ItemsIn(c1.frames[i], w.all)
    {
      if i < |c.frames| {
        assert c1.frames[..|c.frames|][i] == c1.frames[i];
      }
    }
  }

  lemma PushIn(items: seq<Item>, it: Item, all: set<Occ>, cl: Classification, inSink: bool)
    requires ItemsIn(items, all) && OccB(it.body, true) <= all
    ensures ItemsIn(Push(items, it), all)
    ensures DueItems(Push(items, it), cl, inSink) ==
      DueItems(items, cl, inSink) + (if it.err then {} else DueB(it.body, cl, inSink))
  {
    var s := Push(items, it);
    forall i | 0 <= i < |s|
      ensures OccB(s[i].body, true) <= all
    {
      if i < |items| {
        assert s[..|items|][i] == s[i];
      }
    }
  }

  lemma SameCl(c: Ctx, w: World)
    requires CtxIn(c, w)
    ensures c.cl == w.cl
  {
  }

  /** One recorded use. */
  lemma OneUse(u: UseSite, o: Occ, a: At, r1: Ren, f: Frag, w: World)
    requires On(r1, w.start) && a.r.nextId <= r1.nextId && f.log == [Step(a.p, Some(u))] && f.ren == r1
    requires f.out.block == a.p.block && f.next == a.n
    requires o in w.all && !o.Aside? && Right(u, o, w, r1.nextId)
    ensures Shown(a, f, {o}, w)
  {
    hide On, Right;
    assert Step(a.p, Some(u)) in f.log;
  }

  lemma ShowUse(x: string, span: nat, c: Ctx, p: Point, n: nat, r: Ren, w: World)
    requires CtxIn(c, w) && On(r, w.start) && Used(x, span) in w.all
    ensures Shown(At(p, n, r), LowerE(Use(x, span), c, p, n, r), {Used(x, span)}, w)
  {
    hide CtxIn, On;
    SameCl(c, w);
    UseIs(r, x, w.start);
    OneUse(Rename(r, LeafUse(c.cl, x, span)), Used(x, span), At(p, n, r), r, LowerE(Use(x, span), c, p, n, r), w);
  }

  lemma UseIs(r: Ren, x: string, w: Start)
    requires On(r, w)
    ensures OwnOrOuter(Mangle(r.stack, x), false, w, r.nextId)
  {
    MangleIs(r.stack, x, w, r.nextId);
  }

  lemma {:induction false} ShowDefs(names: seq<string>, span: nat, p: Point, n: nat, r: Ren, w: World)
    requires On(r, w.start) && NameMarks(names, span) <= w.all
    ensures Shown(At(p, n, r), LowerDefs(names, span, p, n, r), NameMarks(names, span), w)
    decreases |names|
  {
    hide On, Shown, NameMarks;
    MarksCons(names, span);
    if names == [] {
      ShownNone(At(p, n, r), w);
    } else {
      var r1 := Note(r, names[0]);
      var u := Rename(r1, DefineUse(names[0], span));
      var q := Point(p.block, p.off + 1);
      var f := LowerDefs(names[1..], span, q, n, r1);
      OnNote(r, names[0], w.start);
      NotedIs(r, names[0], w.start);
      ShowDefs(names[1..], span, q, n, r1, w);
      var one := Frag([Step(p, Some(u))], p, n, r1);
      OneUse(u, Introduced(names[0], span), At(p, n, r), r1, one, w);
      ShownCat(At(p, n, r), one, {Introduced(names[0], span)}, At(q, n, r1), f, NameMarks(names[1..], span), w);
    }
  }

  lemma MarksCons(names: seq<string>, span: nat)
    ensures NameMarks(names, span) ==
      if names == [] then {} else {Introduced(names[0], span)} + NameMarks(names[1..], span)
  {
    if names != [] {
      assert names == [names[0]] + names[1..];
    }
  }

  lemma ShowPat(pat: Pat, p: Point, n: nat, r: Ren, w: World)
    requires On(r, w.start) && Marks(pat) <= w.all
    ensures Shown(At(p, n, r), LowerDefs(pat.names, pat.span, p, n, r), Marks(pat), w)
  {
    hide On, Shown;
    ShowDefs(pat.names, pat.span, p, n, r, w);
  }

  /** After a lowering, ready for the next. */
  lemma StillOn(a: At, f: Frag, need: set<Occ>, w: World)
    requires Shown(a, f, need, w)
    ensures On(f.ren, w.start) && a.n <= f.next && Inside(f.out.block, a, f.next) && a.r.nextId <= f.ren.nextId
  {
  }

  lemma {:induction false} ShowE(e: Expr, c: Ctx, p: Point, n: nat, r: Ren, w: World)
    requires CtxIn(c, w) && On(r, w.start) && OccE(e, true) <= w.all
    ensures Shown(At(p, n, r), LowerE(e, c, p, n, r), DueE(e, c.cl, c.inSink), w)
    decreases SizeE(e) + FramesSize(c.frames), 2
  {
    hide On, Shown, CtxIn;
    var a := At(p, n, r);
    match e
    case Leaf => ShownNone(a, w);
    case Use(x, span) => ShowUse(x, span, c, p, n, r, w);
    case Ops(_, es) => ShowEs(es, c, p, n, r, w);
    case BlockE(b) => ShowBlock(b, c, p, n, r, w);
    case If(_, _, _, _) => ShowIf(e, c, p, n, r, w);
    case Match(_, _) => ShowMatch(e, c, p, n, r, w);
    case While(l, cond, b) => ShowLoop(Some(cond), None, l, b, c, p, n, r, w);
    case For(_, _, _, _) => ShowFor(e, c, p, n, r, w);
    case Loop(l, b) =>
      ShowLoop(None, None, l, b, c, p, n, r, w);
      assert {} + DueB(b, c.cl, c.inSink) == DueE(e, c.cl, c.inSink);
    case Break(l, v) =>
      ShowE(v, c, p, n, r, w);
      ShowExit(a, LowerE(v, c, p, n, r), DueE(v, c.cl, c.inSink), Brk(l), c, w);
    case Continue(l) =>
      ShownNone(a, w);
      ShowExit(a, Frag([], p, n, r), {}, Cont(l), c, w);
    case Return(v) =>
      ShowE(v, c, p, n, r, w);
      ShowExit(a, LowerE(v, c, p, n, r), DueE(v, c.cl, c.inSink), Ret, c, w);
    case Question(_) => ShowQuestion(e, c, p, n, r, w);
    case Closure(_) => ShowClosure(e, c, p, n, r, w);
    case MethodCall(_, _) => ShowCall(e, c, p, n, r, w);
  }

  lemma {:induction false} ShowEs(es: Exprs, c: Ctx, p: Point, n: nat, r: Ren, w: World)
    requires CtxIn(c, w) && On(r, w.start) && OccEs(es, true) <= w.all
    ensures Shown(At(p, n, r), LowerEs(es, c, p, n, r), DueEs(es, c.cl, c.inSink), w)
    decreases SizeEs(es) + FramesSize(c.frames), 2
  {
    hide On, Shown, CtxIn, LowerE, OccE, DueE;
    var a := At(p, n, r);
    match es
    case ENil => ShownNone(a, w);
    case ECons(h, t) =>
      var f := LowerE(h, c, p, n, r);
      ShowE(h, c, p, n, r, w);
      StillOn(a, f, DueE(h, c.cl, c.inSink), w);
      ShowEs(t, c, f.out, f.next, f.ren, w);
      ShownCat(a, f, DueE(h, c.cl, c.inSink), After(f), LowerEs(t, c, f.out, f.next, f.ren),
          DueEs(t, c.cl, c.inSink), w);
  }

  lemma {:induction false} ShowThen(pat: Pat, t: Block, c: Ctx, n: nat, r: Ren, w: World)
    requires CtxIn(c, w) && On(r, w.start) && Marks(pat) <= w.all && OccB(t, true) <= w.all
    ensures Shown(At(Point(n, 0), n + 1, r), LowerThen(pat, t, c, n, r), Marks(pat) + DueB(t, c.cl, c.inSink), w)
    decreases SizeB(t) + FramesSize(c.frames), 4
  {
    hide On, Shown, CtxIn, LowerBlock, OccB, DueB, Marks;
    var a := At(Point(n, 0), n + 1, r);
    var d := LowerDefs(pat.names, pat.span, Point(n, 0), n + 1, r);
    ShowPat(pat, Point(n, 0), n + 1, r, w);
    StillOn(a, d, Marks(pat), w);
    ShowBlock(t, c, d.out, n + 1, d.ren, w);
    ShownCat(a, d, Marks(pat), After(d), LowerBlock(t, c, d.out, n + 1, d.ren), DueB(t, c.cl, c.inSink), w);
  }

  lemma {:induction false} ShowIf(e: Expr, c: Ctx, p: Point, n: nat, r: Ren, w: World)
    requires e.If? && CtxIn(c, w) && On(r, w.start) && OccE(e, true) <= w.all
    ensures Shown(At(p, n, r), LowerE(e, c, p, n, r), DueE(e, c.cl, c.inSink), w)
    decreases SizeE(e) + FramesSize(c.frames), 1
  {
    hide On, Shown, CtxIn, LowerThen, OccB, DueB, Marks;
    var a := At(p, n, r);
    var f := LowerE(e.cond, c, p, n, r);
    var due := DueE(e.cond, c.cl, c.inSink);
    ShowE(e.cond, c, p, n, r, w);
    StillOn(a, f, due, w);
    var th := LowerThen(e.pat, e.thenBranch, c, f.next, f.ren);
    var dueThen := Marks(e.pat) + DueB(e.thenBranch, c.cl, c.inSink);
    ShowThen(e.pat, e.thenBranch, c, f.next, f.ren, w);
    ShownCat(a, f, due, At(Point(f.next, 0), f.next + 1, f.ren), th, dueThen, w);
    var k := Cat(f, Enter(f.out, f.next, th));
    StillOn(a, Cat(f, th), due + dueThen, w);
    ShownAs(a, Cat(f, th), due + dueThen, w, k, due + dueThen);
    match e.elseBranch
    case None => ShownAs(a, k, due + dueThen, w, LowerE(e, c, p, n, r), DueE(e, c.cl, c.inSink));
    case Some(x) =>
      var h := LowerE(x, c, Point(k.next + 1, 0), k.next + 2, k.ren);
      ShowE(x, c, Point(k.next + 1, 0), k.next + 2, k.ren, w);
      ShownCat(a, k, due + dueThen, At(Point(k.next + 1, 0), k.next + 2, k.ren), h, DueE(x, c.cl, c.inSink), w);
      IfUses(k, f.out, h);
      ShownAs(a, Cat(k, h), due + dueThen + DueE(x, c.cl, c.inSink), w, LowerE(e, c, p, n, r),
          DueE(e, c.cl, c.inSink));
  }

  lemma IfUses(k: Frag, q: Point, h: Frag)
    ensures var m := Merge(k, [Jump(k.out, k.next, false)], Branch(q, k.next, k.next + 1, h));
      SameUses(Cat(k, h).log, m.log) && m.ren == h.ren
  {
  }

  lemma {:induction false} ShowMatch(e: Expr, c: Ctx, p: Point, n: nat, r: Ren, w: World)
    requires e.Match? && CtxIn(c, w) && On(r, w.start) && OccE(e, true) <= w.all
    ensures Shown(At(p, n, r), LowerE(e, c, p, n, r), DueE(e, c.cl, c.inSink), w)
    decreases SizeE(e) + FramesSize(c.frames), 1
  {
    hide On, Shown, CtxIn, LowerArms;
    var a := At(p, n, r);
    var f := LowerE(e.scrutinee, c, p, n, r);
    var due := DueE(e.scrutinee, c.cl, c.inSink);
    ShowE(e.scrutinee, c, p, n, r, w);
    StillOn(a, f, due, w);
    if e.arms.NoArm? {
      assert DueE(e, c.cl, c.inSink) == due + {};
      ShownAs(a, f, due, w, LowerE(e, c, p, n, r), DueE(e, c.cl, c.inSink));
    } else {
      var g := LowerArms(e.arms, c, f.out, f.next, f.next + 1, f.ren);
      ShowArms(e.arms, c, f.out, f.next, f.next + 1, f.ren, w);
      StillOn(After(f), g, DueArms(e.arms, c.cl, c.inSink), w);
      ShownCat(a, f, due, After(f), g, DueArms(e.arms, c.cl, c.inSink), w);
      ShownAs(a, Cat(f, g), DueE(e, c.cl, c.inSink), w, LowerE(e, c, p, n, r), DueE(e, c.cl, c.inSink));
    }
  }

  lemma {:induction false} ShowArms(arms: Arms, c: Ctx, m: Point, merge: nat, n: nat, r: Ren, w: World)
    requires CtxIn(c, w) && On(r, w.start) && OccArms(arms, true) <= w.all && merge < n
    ensures Shown(At(m, merge, r), LowerArms(arms, c, m, merge, n, r), DueArms(arms, c.cl, c.inSink), w)
    decreases SizeArms(arms) + FramesSize(c.frames), 2
  {
    hide On, Shown, CtxIn, LowerArm, OccE, DueE, Marks;
    var a := At(m, merge, r);
    match arms
    case NoArm =>
      ShownNone(a, w);
      ShownAs(a, Frag([], m, merge, r), {}, w, LowerArms(arms, c, m, merge, n, r), {});
    case Arm(pat, guard, body, others) =>
      var f := LowerArm(pat, guard, body, c, n, r);
      var need := Marks(pat) + (DueE(guard, c.cl, c.inSink) + DueE(body, c.cl, c.inSink));
      ShowArm(pat, guard, body, c, n, r, w);
      var b := Branch(m, merge, n, f);
      Within(a, At(Point(n, 0), n + 1, r), f, need, w);
      StillOn(a, f, need, w);
      ShownAs(a, f, need, w, b, need);
      Height(r, w.start);
      OnCut(f.ren, |r.stack|, w.start);
      ShownRen(a, b, need, w, PopFrame(f.ren));
      var g := LowerArms(others, c, m, merge, f.next, PopFrame(f.ren));
      ShowArms(others, c, m, merge, f.next, PopFrame(f.ren), w);
      StillOn(At(m, merge, PopFrame(f.ren)), g, DueArms(others, c.cl, c.inSink), w);
      ArmsNext(a, b.(ren := PopFrame(f.ren)), need, g, DueArms(others, c.cl, c.inSink), w);
      ShownAs(a, Cat(b.(ren := PopFrame(f.ren)), g), need + DueArms(others, c.cl, c.inSink), w,
          LowerArms(arms, c, m, merge, n, r), DueArms(arms, c.cl, c.inSink));
  }

  /** The arms that follow start where the first did. */
  lemma ArmsNext(a: At, b: Frag, need: set<Occ>, g: Frag, rest: set<Occ>, w: World)
    requires Shown(a, b, need, w) && Shown(At(a.p, a.n, b.ren), g, rest, w) && b.next <= g.next
    ensures Shown(a, Cat(b, g), need + rest, w)
  {
    hide On, Told;
    ToldLater(b.log, need, w, b.ren.nextId, g.ren.nextId);
    ToldCat(b.log, need, g.log, rest, w, g.ren.nextId);
  }

  /** As many frames as there were can stay. */
  lemma Height(r: Ren, w: Start)
    requires On(r, w)
    ensures Higher(|r.stack|, w)
  {
  }

  lemma {:induction false} ShowArm(pat: Pat, guard: Expr, body: Expr, c: Ctx, n: nat, r: Ren, w: World)
    requires CtxIn(c, w) && On(r, w.start) && Marks(pat) <= w.all && OccE(guard, true) <= w.all &&
        OccE(body, true) <= w.all
    ensures Shown(At(Point(n, 0), n + 1, r), LowerArm(pat, guard, body, c, n, r),
        Marks(pat) + (DueE(guard, c.cl, c.inSink) + DueE(body, c.cl, c.inSink)), w)
    decreases SizeE(guard) + SizeE(body) + 2 + FramesSize(c.frames), 3
  {
    hide On, Shown, CtxIn, LowerE, OccE, DueE, Marks;
    var a := At(Point(n, 0), n + 1, r);
    var r0 := PushFrame(r, InArm);
    OnPush(r, InArm, w.start);
    var d := LowerDefs(pat.names, pat.span, Point(n, 0), n + 1, r0);
    ShowPat(pat, Point(n, 0), n + 1, r0, w);
    Within(a, At(Point(n, 0), n + 1, r0), d, Marks(pat), w);
    StillOn(a, d, Marks(pat), w);
    var g := LowerE(guard, c, d.out, n + 1, d.ren);
    var due, dueBody := DueE(guard, c.cl, c.inSink), DueE(body, c.cl, c.inSink);
    ShowE(guard, c, d.out, n + 1, d.ren, w);
    StillOn(After(d), g, due, w);
    var h := LowerE(body, c, g.out, g.next, g.ren);
    ShowE(body, c, g.out, g.next, g.ren, w);
    ShownCat(After(d), g, due, After(g), h, dueBody, w);
    ShownCat(a, d, Marks(pat), After(d), Cat(g, h), due + dueBody, w);
  }

  function OccCond(cond: Option<Expr>, pat: Option<Pat>): set<Occ> {
    match cond
    case None => {}
    case Some(e) => (match pat case None => OccE(e, true) case Some(pt) => OccE(e, true) + Marks(pt))
  }

  function DueCond(cond: Option<Expr>, pat: Option<Pat>, c: Ctx): set<Occ> {
    match cond
    case None => {}
    case Some(e) =>
      (match pat case None => DueE(e, c.cl, c.inSink) case Some(pt) => DueE(e, c.cl, c.inSink) + Marks(pt))
  }

  lemma {:induction false} ShowHead(cond: Option<Expr>, pat: Option<Pat>, c: Ctx, p: Point, n: nat, r: Ren, w: World)
    requires CtxIn(c, w) && On(r, w.start) && OccCond(cond, pat) <= w.all
    ensures Shown(At(p, n, r), LowerHead(cond, pat, c, p, n, r), DueCond(cond, pat, c), w)
    decreases CondSize(cond) + FramesSize(c.frames), 3
  {
    hide On, Shown, CtxIn, LowerE, OccE, DueE, Marks;
    var a := At(p, n, r);
    match cond
    case None =>
      ShownNone(a, w);
      ShownAs(a, Frag([], p, n, r), {}, w, LowerHead(cond, pat, c, p, n, r), {});
    case Some(e) =>
      var f := LowerE(e, c, Point(n, 0), n + 1, r);
      var due := DueE(e, c.cl, c.inSink);
      ShowE(e, c, Point(n, 0), n + 1, r, w);
      Within(a, At(Point(n, 0), n + 1, r), f, due, w);
      StillOn(a, f, due, w);
      var k := Heading(p, n, f);
      ShownAs(a, f, due, w, k, due);
      match pat {
        case None =>
        case Some(pt) =>
          var r0 := PushFrame(k.ren, InFor);
          OnPush(k.ren, InFor, w.start);
          var d := LowerDefs(pt.names, pt.span, k.out, k.next, r0);
          ShowPat(pt, k.out, k.next, r0, w);
          ShownCat(a, k, due, At(k.out, k.next, r0), d, Marks(pt), w);
      }
  }

  lemma {:induction false} ShowLoop(cond: Option<Expr>, pat: Option<Pat>, lbl: Label, b: Block, c: Ctx,
                                    p: Point, n: nat, r: Ren, w: World)
    requires CtxIn(c, w) && On(r, w.start) && OccCond(cond, pat) <= w.all && OccB(b, true) <= w.all
    ensures Shown(At(p, n, r), LowerLoop(cond, pat, lbl, b, c, p, n, r),
        DueCond(cond, pat, c) + DueB(b, c.cl, c.inSink), w)
    decreases CondSize(cond) + 2 + SizeB(b) + FramesSize(c.frames), 3
  {
    hide On, Shown, CtxIn, LowerHead, LowerBlock, OccB, DueB, OccCond, DueCond;
    var a := At(p, n, r);
    var h := LowerHead(cond, pat, c, p, n, r);
    ShowHead(cond, pat, c, p, n, r, w);
    StillOn(a, h, DueCond(cond, pat, c), w);
    var c1 := InLoop(c, lbl, h.next - 1, n);
    LoopIn(c, lbl, h.next - 1, n, w);
    var g := LowerBlock(b, c1, h.out, h.next, h.ren);
    ShowBlock(b, c1, h.out, h.next, h.ren, w);
    var need := DueCond(cond, pat, c) + DueB(b, c.cl, c.inSink);
    ShownCat(a, h, DueCond(cond, pat, c), After(h), g, DueB(b, c.cl, c.inSink), w);
    StillOn(a, Cat(h, g), need, w);
    var r1 := if cond.Some? && pat.Some? then PopFrame(g.ren) else g.ren;
    if cond.Some? && pat.Some? {
      Height(r, w.start);
      OnCut(g.ren, |r.stack|, w.start);
    }
    var k := Cat(h, g).(ren := r1);
    ShownRen(a, Cat(h, g), need, w, r1);
    LoopUses(n, h, g, r1);
    ShownAs(a, k, need, w, LowerLoop(cond, pat, lbl, b, c, p, n, r), need);
  }

  lemma LoopUses(n: nat, h: Frag, g: Frag, r: Ren)
    requires h.next > 0
    ensures SameUses(h.log + g.log, LoopBack(n, h, g, r).log)
  {
  }

  lemma LoopIn(c: Ctx, lbl: Label, merge: nat, header: nat, w: World)
    requires CtxIn(c, w)
    ensures var c1 := InLoop(c, lbl, merge, header);
      CtxIn(c1, w) && c1.frames == c.frames && c1.cl == c.cl && c1.inSink == c.inSink
  {
  }

  lemma {:induction false} ShowFor(e: Expr, c: Ctx, p: Point, n: nat, r: Ren, w: World)
    requires e.For? && CtxIn(c, w) && On(r, w.start) && OccE(e, true) <= w.all
    ensures Shown(At(p, n, r), LowerE(e, c, p, n, r), DueE(e, c.cl, c.inSink), w)
    decreases SizeE(e) + FramesSize(c.frames), 1
  {
    hide On, Shown, CtxIn, LowerLoop, OccB, DueB, Marks;
    var a := At(p, n, r);
    var f := LowerE(e.iterable, c, p, n, r);
    var due := DueE(e.iterable, c.cl, c.inSink);
    ShowE(e.iterable, c, p, n, r, w);
    StillOn(a, f, due, w);
    assert OccCond(Some(Leaf), Some(e.pat)) == Marks(e.pat) == DueCond(Some(Leaf), Some(e.pat), c);
    ShowLoop(Some(Leaf), Some(e.pat), e.lbl, e.body, c, f.out, f.next, f.ren, w);
    var g := LowerLoop(Some(Leaf), Some(e.pat), e.lbl, e.body, c, f.out, f.next, f.ren);
    var dueLoop := Marks(e.pat) + DueB(e.body, c.cl, c.inSink);
    ShownCat(a, f, due, After(f), g, dueLoop, w);
    StillOn(a, Cat(f, g), due + dueLoop, w);
    ShownAs(a, Cat(f, g), due + dueLoop, w, LowerE(e, c, p, n, r), DueE(e, c.cl, c.inSink));
  }

  lemma {:induction false} ShowUnwind(o: Outcome, c: Ctx, p: Point, n: nat, r: Ren, w: World)
    requires o != Normal && TargetOf(c, o).Some? && CtxIn(c, w) && On(r, w.start)
    ensures Shown(At(p, n, r), Unwind(o, c, p, n, r), {}, w)
    decreases FramesSize(c.frames), 2
  {
    hide On, Shown, CtxIn, LowerChain;
    TargetSize(c, o);
    TargetIn(c, o, w);
    SameCl(c, w);
    var bs := TargetOf(c, o).value.bodies;
    ShowChain(bs, c, p, n, r, w);
    StillOn(At(p, n, r), LowerChain(bs, c, p, n, r), DueBodies(bs, c.cl, c.inSink), w);
    ShownAs(At(p, n, r), LowerChain(bs, c, p, n, r), DueBodies(bs, c.cl, c.inSink), w, Unwind(o, c, p, n, r), {});
  }

  lemma {:induction false} ShowExit(a: At, f: Frag, need: set<Occ>, o: Outcome, c: Ctx, w: World)
    requires o != Normal && CtxIn(c, w) && Shown(a, f, need, w)
    ensures Shown(a, LowerExit(f, o, c), need, w)
    decreases FramesSize(c.frames), 3
  {
    hide On, Shown, CtxIn, Unwind, TargetOf;
    StillOn(a, f, need, w);
    if TargetOf(c, o).None? {
      ShownAs(a, f, need, w, LowerExit(f, o, c), need);
    } else {
      ShowUnwind(o, c, f.out, f.next, f.ren, w);
      var k := Cat(f, Unwind(o, c, f.out, f.next, f.ren));
      ShownCat(a, f, need, After(f), Unwind(o, c, f.out, f.next, f.ren), {}, w);
      StillOn(a, k, need + {}, w);
      ShownAs(a, k, need + {}, w, LowerExit(f, o, c), need);
    }
  }

  lemma {:induction false} ShowQuestion(e: Expr, c: Ctx, p: Point, n: nat, r: Ren, w: World)
    requires e.Question? && CtxIn(c, w) && On(r, w.start) && OccE(e, true) <= w.all
    ensures Shown(At(p, n, r), LowerE(e, c, p, n, r), DueE(e, c.cl, c.inSink), w)
    decreases SizeE(e) + FramesSize(c.frames), 1
  {
    hide On, Shown, CtxIn, Unwind;
    var a := At(p, n, r);
    var f := LowerE(e.inner, c, p, n, r);
    var due := DueE(e.inner, c.cl, c.inSink);
    ShowE(e.inner, c, p, n, r, w);
    StillOn(a, f, due, w);
    ShowUnwind(Ret, c, f.out, f.next, f.ren, w);
    var k := Cat(f, Unwind(Ret, c, f.out, f.next, f.ren));
    ShownCat(a, f, due, After(f), Unwind(Ret, c, f.out, f.next, f.ren), {}, w);
    StillOn(a, k, due + {}, w);
    ShownAs(a, k, due + {}, w, LowerE(e, c, p, n, r), DueE(e, c.cl, c.inSink));
  }

  lemma {:induction false} ShowClosure(e: Expr, c: Ctx, p: Point, n: nat, r: Ren, w: World)
    requires e.Closure? && CtxIn(c, w) && On(r, w.start) && OccE(e, true) <= w.all
    ensures Shown(At(p, n, r), LowerE(e, c, p, n, r), DueE(e, c.cl, c.inSink), w)
    decreases SizeE(e) + FramesSize(c.frames), 1
  {
    hide On, Shown, CtxIn, StaysE, LeavesE;
    var f := LowerE(e.code, c, Point(n, 0), n + 2, r);
    var due := DueE(e.code, c.cl, c.inSink);
    var closed := LeavesE(e.code, Labels(c.loops)) == {};
    ShowE(e.code, c, Point(n, 0), n + 2, r, w);
    SideShown(p, n, r, f, due, w, c.inSink, closed);
    if StaysE(e.code, []) {
      LeavesNone(e.code, Labels(c.loops));
    }
    var g := Side(p, n, f, c.inSink, closed);
    StillOn(At(p, n, r), g, due + (if !c.inSink && closed then Asides(due) else {}), w);
    ShownAs(At(p, n, r), g, due + (if !c.inSink && closed then Asides(due) else {}), w, LowerE(e, c, p, n, r),
        DueE(e, c.cl, c.inSink));
  }

  lemma {:induction false} NoSinkDue(args: Args, cl: Classification, inSink: bool)
    requires !HasSink(args, cl)
    ensures DueArgs(args, true, cl, inSink) == {}
  {
    if args.ACons? {
      NoSinkDue(args.tail, cl, inSink);
    }
  }

  lemma {:induction false} ShowArgs(args: Args, c: Ctx, p: Point, n: nat, r: Ren, w: World)
    requires CtxIn(c, w) && On(r, w.start) && OccArgs(args, true) <= w.all
    ensures Shown(At(p, n, r), LowerArgs(args, c, p, n, r), DueArgs(args, false, c.cl, c.inSink), w)
    decreases SizeArgs(args) + FramesSize(c.frames), 2
  {
    hide On, Shown, CtxIn, LowerE, OccE, DueE;
    var a := At(p, n, r);
    match args
    case ANil => ShownNone(a, w);
    case ACons(span, v, t) =>
      if span in c.cl.sinks {
        ShowArgs(t, c, p, n, r, w);
        assert DueArgs(args, false, c.cl, c.inSink) == DueArgs(t, false, c.cl, c.inSink);
      } else {
        var f := LowerE(v, c, p, n, r);
        ShowE(v, c, p, n, r, w);
        StillOn(a, f, DueE(v, c.cl, c.inSink), w);
        ShowArgs(t, c, f.out, f.next, f.ren, w);
        ShownCat(a, f, DueE(v, c.cl, c.inSink), After(f), LowerArgs(t, c, f.out, f.next, f.ren),
            DueArgs(t, false, c.cl, c.inSink), w);
      }
  }

  lemma {:induction false} ShowSinks(args: Args, c: Ctx, s: Point, n: nat, r: Ren, w: World)
    requires CtxIn(c, w) && On(r, w.start) && OccArgs(args, true) <= w.all
    ensures Shown(At(s, n, r), LowerSinks(args, c, s, n, r), DueArgs(args, true, c.cl, c.inSink), w)
    decreases SizeArgs(args) + FramesSize(c.frames), 2
  {
    hide On, Shown, CtxIn, LowerE, OccE, DueE;
    var a := At(s, n, r);
    match args
    case ANil => ShownNone(a, w);
    case ACons(span, v, t) =>
      if span !in c.cl.sinks {
        ShowSinks(t, c, s, n, r, w);
        assert DueArgs(args, true, c.cl, c.inSink) == DueArgs(t, true, c.cl, c.inSink);
      } else {
        var f := LowerE(v, c, s, n, r);
        var q := Point(s.block, s.off + Steps(f.log, s.block));
        ShowE(v, c, s, n, r, w);
        StillOn(a, f, DueE(v, c.cl, c.inSink), w);
        ShowSinks(t, c, q, f.next, f.ren, w);
        ShownCat(a, f, DueE(v, c.cl, c.inSink), At(q, f.next, f.ren), LowerSinks(t, c, q, f.next, f.ren),
            DueArgs(t, true, c.cl, c.inSink), w);
      }
  }

  lemma {:induction false} ShowCall(e: Expr, c: Ctx, p: Point, n: nat, r: Ren, w: World)
    requires e.MethodCall? && CtxIn(c, w) && On(r, w.start) && OccE(e, true) <= w.all
    ensures Shown(At(p, n, r), LowerE(e, c, p, n, r), DueE(e, c.cl, c.inSink), w)
    decreases SizeE(e) + FramesSize(c.frames), 1
  {
    hide On, Shown, CtxIn, LowerArgs, LowerSinks, LeavesSinks, StaysSinks, OccArgs, DueArgs;
    var a := At(p, n, r);
    var f := LowerE(e.receiver, c, p, n, r);
    var due := DueE(e.receiver, c.cl, c.inSink);
    ShowE(e.receiver, c, p, n, r, w);
    StillOn(a, f, due, w);
    var g := LowerArgs(e.actuals, c, f.out, f.next, f.ren);
    var dueArgs := DueArgs(e.actuals, false, c.cl, c.inSink);
    ShowArgs(e.actuals, c, f.out, f.next, f.ren, w);
    var k := Cat(f, g);
    ShownCat(a, f, due, After(f), g, dueArgs, w);
    StillOn(a, k, due + dueArgs, w);
    if !HasSink(e.actuals, c.cl) {
      NoSinkDue(e.actuals, c.cl, true);
      ShownAs(a, k, due + dueArgs, w, LowerE(e, c, p, n, r), DueE(e, c.cl, c.inSink));
    } else {
      var c1 := c.(inSink := true);
      SinkIn(c, w);
      var h := LowerSinks(e.actuals, c1, Point(k.next, 0), k.next + 2, k.ren);
      var dueSinks := DueArgs(e.actuals, true, c.cl, true);
      var closed := LeavesSinks(e.actuals, c.cl, Labels(c.loops)) == {};
      ShowSinks(e.actuals, c1, Point(k.next, 0), k.next + 2, k.ren, w);
      SideShown(k.out, k.next, k.ren, h, dueSinks, w, c.inSink, closed);
      if StaysSinks(e.actuals, c.cl) {
        SinksLeaveNone(e.actuals, c.cl, Labels(c.loops));
      }
      var dueSide := dueSinks + (if !c.inSink && closed then Asides(dueSinks) else {});
      var side := Side(k.out, k.next, h, c.inSink, closed);
      ShownCat(a, k, due + dueArgs, After(k), side, dueSide, w);
      StillOn(a, Cat(k, side), due + dueArgs + dueSide, w);
      ShownAs(a, Cat(k, side), due + dueArgs + dueSide, w, LowerE(e, c, p, n, r), DueE(e, c.cl, c.inSink));
    }
  }

  lemma SinkIn(c: Ctx, w: World)
    requires CtxIn(c, w)
    ensures CtxIn(c.(inSink := true), w)
  {
  }

  lemma {:induction false} ShowChain(bs: seq<Block>, c: Ctx, p: Point, n: nat, r: Ren, w: World)
    requires c.cl == w.cl && On(r, w.start) && BodiesIn(bs, w.all)
    ensures Shown(At(p, n, r), LowerChain(bs, c, p, n, r), DueBodies(bs, c.cl, c.inSink), w)
    decreases BodiesSize(bs), 1
  {
    hide On, Shown, LowerBlock, OccB, DueB;
    var a := At(p, n, r);
    if bs == [] {
      ShownNone(a, w);
    } else {
      var r0 := PushFrame(r, Cu);
      OnPush(r, Cu, w.start);
      var f := LowerBlock(bs[0], CleanupCtx(c), Point(n, 0), n + 1, r0);
      var due := DueB(bs[0], c.cl, c.inSink);
      ShowBlock(bs[0], CleanupCtx(c), Point(n, 0), n + 1, r0, w);
      ChainBody(p, n, r, f, due, w);
      var k := Enter(p, n, f).(ren := PopFrame(f.ren));
      StillOn(a, k, due, w);
      ShowChain(bs[1..], c, f.out, f.next, PopFrame(f.ren), w);
      var g := LowerChain(bs[1..], c, f.out, f.next, PopFrame(f.ren));
      ShownCat(a, k, due, After(k), g, DueBodies(bs[1..], c.cl, c.inSink), w);
    }
  }

  /** The first body of a chain, with its frame dropped behind it. */
  lemma ChainBody(p: Point, n: nat, r: Ren, f: Frag, due: set<Occ>, w: World)
    requires On(r, w.start) && |f.ren.stack| == |r.stack| + 1
    requires Shown(At(Point(n, 0), n + 1, PushFrame(r, Cu)), f, due, w)
    ensures Shown(At(p, n, r), Enter(p, n, f).(ren := PopFrame(f.ren)), due, w)
  {
    hide Shown;
    var a := At(p, n, r);
    Within(a, At(Point(n, 0), n + 1, PushFrame(r, Cu)), f, due, w);
    StillOn(a, f, due, w);
    ShownAs(a, f, due, w, Enter(p, n, f), due);
    OnCut(f.ren, |r.stack|, w.start);
    ShownRen(a, Enter(p, n, f), due, w, PopFrame(f.ren));
  }

  lemma {:induction false} ShowBlock(b: Block, c: Ctx, p: Point, n: nat, r: Ren, w: World)
    requires CtxIn(c, w) && On(r, w.start) && OccB(b, true) <= w.all
    ensures Shown(At(p, n, r), LowerBlock(b, c, p, n, r), DueB(b, c.cl, c.inSink), w)
    decreases SizeB(b) + FramesSize(c.frames), 3
  {
    hide On, Shown, CtxIn, LowerRest, OccB, DueB;
    var a := At(p, n, r);
    var f := LowerRest(b, [], c, p, n, r);
    var need := DueB(b, c.cl, c.inSink) + DueItems([], c.cl, c.inSink);
    ShowRest(b, [], c, p, n, r, w);
    StillOn(a, f, need, w);
    Height(r, w.start);
    OnCut(f.ren, |r.stack|, w.start);
    ShownRen(a, f, need, w, f.ren.(stack := f.ren.stack[..|r.stack|]));
    var g := LowerBlock(b, c, p, n, r);
    ShownAs(a, f.(ren := g.ren), need, w, g, DueB(b, c.cl, c.inSink));
  }

  lemma {:induction false} ShowRest(b: Block, items: seq<Item>, c: Ctx, p: Point, n: nat, r: Ren, w: World)
    requires CtxIn(c, w) && On(r, w.start) && OccB(b, true) <= w.all && ItemsIn(items, w.all)
    ensures Shown(At(p, n, r), LowerRest(b, items, c, p, n, r),
        DueB(b, c.cl, c.inSink) + DueItems(items, c.cl, c.inSink), w)
    decreases SizeB(b) + ItemsSize(items) + FramesSize(c.frames), 2
  {
    hide On, Shown, CtxIn, ItemsIn, LowerE, LowerChain, LowerPlain, OccE, DueE, DueItems;
    var a := At(p, n, r);
    match b
    case Done(e) =>
      var f := LowerE(e, InScope(c, items), p, n, r);
      ScopeIn(c, items, w);
      ShowE(e, InScope(c, items), p, n, r, w);
      StillOn(a, f, DueE(e, c.cl, c.inSink), w);
      var bs := FrameBodies(items, false);
      FrameBodiesSize(items, false);
      FrameBodiesIn(items, false, w.all);
      FrameDue(items, c.cl, c.inSink);
      SameCl(c, w);
      ShowChain(bs, c, f.out, f.next, f.ren, w);
      ShownCat(a, f, DueE(e, c.cl, c.inSink), After(f), LowerChain(bs, c, f.out, f.next, f.ren),
          DueBodies(bs, c.cl, c.inSink), w);
    case Then(s, rest) =>
      assert SizeB(b) == 1 + SizeS(s) + SizeB(rest);
      match s
      case Defer(body) => ShowRegister(b, Item(false, body), items, c, p, n, r, w);
      case ErrDefer(body) => ShowRegister(b, Item(true, body), items, c, p, n, r, w);
      case LetElse(_, _, _) => ShowLetElse(b, items, c, p, n, r, w);
      case _ =>
        var need := DueB(b, c.cl, c.inSink) + DueItems(items, c.cl, c.inSink);
        var f := LowerPlain(s, InScope(c, items), p, n, r);
        var due := DueS(s, c.cl, c.inSink);
        ScopeIn(c, items, w);
        ShowPlain(s, InScope(c, items), p, n, r, w);
        StillOn(a, f, due, w);
        ShowRest(rest, items, c, f.out, f.next, f.ren, w);
        var g := LowerRest(rest, items, c, f.out, f.next, f.ren);
        var dueRest := DueB(rest, c.cl, c.inSink) + DueItems(items, c.cl, c.inSink);
        ShownCat(a, f, due, After(f), g, dueRest, w);
        StillOn(a, Cat(f, g), due + dueRest, w);
        ShownAs(a, Cat(f, g), due + dueRest, w, LowerRest(b, items, c, p, n, r), need);
  }

  /** A scope registers a cleanup body. */
  lemma {:induction false} ShowRegister(b: Block, it: Item, items: seq<Item>, c: Ctx, p: Point, n: nat, r: Ren,
          w: World)
    requires b.Then? && b.first == if it.err then ErrDefer(it.body) else Defer(it.body)
    requires CtxIn(c, w) && On(r, w.start) && OccB(b, true) <= w.all && ItemsIn(items, w.all)
    ensures Shown(At(p, n, r), LowerRest(b, items, c, p, n, r),
        DueB(b, c.cl, c.inSink) + DueItems(items, c.cl, c.inSink), w)
    decreases SizeB(b) + ItemsSize(items) + FramesSize(c.frames), 1
  {
    hide On, Shown, CtxIn, ItemsIn, DueItems;
    assert SizeB(b) == 1 + SizeS(b.first) + SizeB(b.rest) && SizeS(b.first) == 1 + SizeB(it.body);
    var a := At(p, n, r);
    var need := DueB(b.rest, c.cl, c.inSink) + DueItems(Push(items, it), c.cl, c.inSink);
    PushSize(items, it);
    PushIn(items, it, w.all, c.cl, c.inSink);
    ShowRest(b.rest, Push(items, it), c, p, n, r, w);
    var f := LowerRest(b.rest, Push(items, it), c, p, n, r);
    StillOn(a, f, need, w);
    ShownAs(a, f, need, w, LowerRest(b, items, c, p, n, r), DueB(b, c.cl, c.inSink) + DueItems(items, c.cl, c.inSink));
  }

  /** What a plain statement has to record. */
  function DueS(s: Stmt, cl: Classification, inSink: bool): set<Occ>
    requires IsPlain(s)
  {
    match s
    case Let(pat, v) => DueE(v, cl, inSink) + Marks(pat)
    case LetUninit(_) => {}
    case Assign(t, v) => DueE(v, cl, inSink) + DueE(t, cl, inSink)
    case ExprStmt(e) => DueE(e, cl, inSink)
  }

  function OccS(s: Stmt): set<Occ>
    requires IsPlain(s)
  {
    match s
    case Let(pat, v) => OccE(v, true) + Marks(pat)
    case LetUninit(_) => {}
    case Assign(t, v) => OccE(v, true) + OccE(t, true)
    case ExprStmt(e) => OccE(e, true)
  }

  lemma {:induction false} ShowLetElse(b: Block, items: seq<Item>, c: Ctx, p: Point, n: nat, r: Ren, w: World)
    requires CtxIn(c, w) && On(r, w.start) && OccB(b, true) <= w.all && ItemsIn(items, w.all)
    requires b.Then? && b.first.LetElse?
    ensures Shown(At(p, n, r), LowerRest(b, items, c, p, n, r),
        DueB(b, c.cl, c.inSink) + DueItems(items, c.cl, c.inSink), w)
    decreases SizeB(b) + ItemsSize(items) + FramesSize(c.frames), 1
  {
    hide On, Shown, CtxIn, ItemsIn, LowerE, LowerBlock, OccE, DueE, DueItems, NoteAll, AnySeen;
    var a := At(p, n, r);
    var s := b.first;
    var c1 := InScope(c, items);
    var names := s.pat.names;
    ScopeIn(c, items, w);
    ScopeSize(c, items);
    assert SizeB(b) == 1 + SizeS(s) + SizeB(b.rest) && SizeS(s) == 1 + SizeE(s.value) + SizeB(s.diverge);
    var f := LowerE(s.value, c1, p, n, r);
    var due, dueElse := DueE(s.value, c.cl, c.inSink), DueB(s.diverge, c.cl, c.inSink);
    ShowE(s.value, c1, p, n, r, w);
    StillOn(a, f, due, w);
    OnNotes(names, f.ren, w.start);
    var r0 := NoteAll(names, f.ren);
    var g := LowerBlock(s.diverge, c1, Point(f.next, 0), f.next + 1, r0);
    ShowBlock(s.diverge, c1, Point(f.next, 0), f.next + 1, r0, w);
    ShownCat(a, f, due, At(Point(f.next, 0), f.next + 1, r0), g, dueElse, w);
    StillOn(a, Cat(f, g), due + dueElse, w);
    AsideUses(f, g);
    var k := CfgLowering.Aside(f, g);
    ShownAs(a, Cat(f, g), due + dueElse, w, k, due + dueElse);
    var r1 := if AnySeen(names, f.ren) then NoteAll(names, PushFrame(g.ren, Sh)) else g.ren;
    OnPush(g.ren, Sh, w.start);
    OnNotes(names, PushFrame(g.ren, Sh), w.start);
    ShownRen(a, k, due + dueElse, w, r1);
    ShowRest(b.rest, items, c, k.out, k.next, r1, w);
    var h := LowerRest(b.rest, items, c, k.out, k.next, r1);
    var dueRest := DueB(b.rest, c.cl, c.inSink) + DueItems(items, c.cl, c.inSink);
    ShownCat(a, k.(ren := r1), due + dueElse, At(k.out, k.next, r1), h, dueRest, w);
    StillOn(a, Cat(k.(ren := r1), h), due + dueElse + dueRest, w);
    ShownAs(a, Cat(k.(ren := r1), h), due + dueElse + dueRest, w, LowerRest(b, items, c, p, n, r),
        DueB(b, c.cl, c.inSink) + DueItems(items, c.cl, c.inSink));
  }

  lemma AsideUses(f: Frag, g: Frag)
    ensures SameUses(Cat(f, g).log, CfgLowering.Aside(f, g).log)
  {
  }

  lemma {:induction false} ShowPlain(s: Stmt, c: Ctx, p: Point, n: nat, r: Ren, w: World)
    requires IsPlain(s) && CtxIn(c, w) && On(r, w.start) && OccS(s) <= w.all
    ensures Shown(At(p, n, r), LowerPlain(s, c, p, n, r), DueS(s, c.cl, c.inSink), w)
    decreases SizeS(s) + FramesSize(c.frames), 3
  {
    hide On, Shown, CtxIn, LowerE, OccE, DueE, Marks, LowerIntro;
    var a := At(p, n, r);
    StmtExprSize(s);
    StmtOccs(s, c.cl, c.inSink);
    var e := StmtExpr(s);
    var f := LowerE(e, c, p, n, r);
    ShowE(e, c, p, n, r, w);
    StillOn(a, f, DueE(e, c.cl, c.inSink), w);
    ShowIntro(s, f.out, f.next, f.ren, w);
    ShownCat(a, f, DueE(e, c.cl, c.inSink), After(f), LowerIntro(s, f.out, f.next, f.ren), IntroMarks(s), w);
  }

  function IntroMarks(s: Stmt): set<Occ> {
    match s case Let(pat, _) => Marks(pat) case _ => {}
  }

  lemma StmtOccs(s: Stmt, cl: Classification, inSink: bool)
    requires IsPlain(s)
    ensures OccE(StmtExpr(s), true) + IntroMarks(s) == OccS(s)
    ensures DueE(StmtExpr(s), cl, inSink) + IntroMarks(s) == DueS(s, cl, inSink)
  {
    if s.Assign? {
      var last := ECons(s.target, ENil);
      assert OccEs(last, true) == OccE(s.target, true) + OccEs(ENil, true);
      assert OccEs(ECons(s.value, last), true) == OccE(s.value, true) + OccEs(last, true);
      assert DueEs(last, cl, inSink) == DueE(s.target, cl, inSink) + DueEs(ENil, cl, inSink);
      assert DueEs(ECons(s.value, last), cl, inSink) == DueE(s.value, cl, inSink) + DueEs(last, cl, inSink);
    }
  }

  lemma ShowIntro(s: Stmt, p: Point, n: nat, r: Ren, w: World)
    requires IsPlain(s) && On(r, w.start) && IntroMarks(s) <= w.all
    ensures Shown(At(p, n, r), LowerIntro(s, p, n, r), IntroMarks(s), w)
  {
    hide On, Shown, Marks, AnySeen, PushFrame, Note;
    var a := At(p, n, r);
    match s
    case Let(pat, _) =>
      OnPush(r, Sh, w.start);
      var r0 := ShadowIfSeen(pat.names, r);
      ShowPat(pat, p, n, r0, w);
      Within(a, At(p, n, r0), LowerDefs(pat.names, pat.span, p, n, r0), Marks(pat), w);
    case LetUninit(x) =>
      OnPush(r, Sh, w.start);
      var r0 := ShadowIfSeen([x], r);
      OnNote(r0, x, w.start);
      ShownNone(a, w);
      ShownRen(a, Frag([], p, n, r), {}, w, Note(r0, x));
    case _ => ShownNone(a, w);
  }

  // ── The whole body ───────────────────────────────────────────────

  /** The use is an occurrence of the body. */
  ghost predicate IsOccurrence(u: UseSite, body: Block, cl: Classification) {
    exists o :: o in OccB(body, true) && Says(u, o, cl)
  }

  ghost predicate InBlock(bs: seq<BasicBlock>, b: int, i: int) {
    0 <= b < |bs| && 0 <= i < |bs[b].uses|
  }

  /** The occurrence is recorded in a block. */
  ghost predicate InSomeBlock(bs: seq<BasicBlock>, o: Occ, cl: Classification) {
    exists b, i :: InBlock(bs, b, i) && Says(bs[b].uses[i], o, cl)
  }

  lemma {:induction false} UsesOfBlock(log: seq<Event>, b: nat, u: UseSite)
    ensures u in BlockUses(log, b) <==> exists ev :: ev in log && Records(ev) && ev.src.block == b && ev.use.value == u
  {
    if log != [] {
      var front, last := log[..|log| - 1], log[|log| - 1];
      assert log == front + [last];
      UsesOfBlock(front, b, u);
      if Records(last) && last.src.block == b && last.use.value == u {
        assert u in BlockUses(log, b);
      }
    }
  }

  function BodyWorld(body: Block, cl: Classification): World {
    World(OccB(body, true), cl, Start([], 0, false))
  }

  lemma LoweringShown(body: Block, cl: Classification, params: seq<string>)
    ensures var f := LowerBody(body, cl, params);
      Told(f.log, DueB(body, cl, false), BodyWorld(body, cl), f.ren.nextId)
  {
    hide LowerBlock, OccB, DueB, Told;
    var w := BodyWorld(body, cl);
    var c := Ctx(cl, 1, [], [], false);
    var r := Ren([], set i | 0 <= i < |params| :: params[i], 0);
    ShowBlock(body, c, Point(0, 0), 2, r, w);
    var f := LowerBlock(body, c, Point(0, 0), 2, r);
    ToldSame(f.log, DueB(body, cl, false), w, f.ren.nextId, LowerBody(body, cl, params).log, DueB(body, cl, false));
  }

  /** For every body: each use in a block is an occurrence of the body, classified as its span
      is, and each occurrence outside errdefer bodies is recorded in a block. */
  lemma UsesAreOccurrences(body: Block, cl: Classification, params: seq<string>)
    ensures var f := LowerBody(body, cl, params); var bs := Blocks(f.log, f.next);
      && (forall b, i :: InBlock(bs, b, i) ==> IsOccurrence(bs[b].uses[i], body, cl))
      && (forall o :: o in OccB(body, false) ==> InSomeBlock(bs, o, cl))
  {
    hide LowerBody, OccB, DueB, Says, BlockUses, Succs;
    var f := LowerBody(body, cl, params);
    var bs := Blocks(f.log, f.next);
    LoweringShown(body, cl, params);
    OccDueB(body, cl, false);
    forall b, i | InBlock(bs, b, i)
      ensures IsOccurrence(bs[b].uses[i], body, cl)
    {
      UsesOfBlock(f.log, b, bs[b].uses[i]);
    }
    InKnownBlocks(body, cl, params);
    forall o | o in OccB(body, false)
      ensures InSomeBlock(bs, o, cl)
    {
      assert Found(f.log, o, BodyWorld(body, cl), f.ren.nextId);
      var ev :| ev in f.log && IsUse(ev, o, BodyWorld(body, cl), f.ren.nextId);
      UsesOfBlock(f.log, ev.src.block, ev.use.value);
      var i :| 0 <= i < |BlockUses(f.log, ev.src.block)| && BlockUses(f.log, ev.src.block)[i] == ev.use.value;
      assert InBlock(bs, ev.src.block, i);
    }
  }

  lemma InKnownBlocks(body: Block, cl: Classification, params: seq<string>)
    ensures var f := LowerBody(body, cl, params); forall ev :: ev in f.log ==> ev.src.block < f.next
  {
    hide CfgGood.Linked, CfgGood.MarksIn, CfgGood.Placed, CfgGood.To;
    CfgInvariant.GoodLowering(body, cl, params, CfgGood.Mode(1, true, true, false));
  }

  // ── Side branches ────────────────────────────────────────────────

  /** Neither block dominates the other, if both are reachable. */
  ghost predicate Unordered(log: seq<Event>, x: nat, y: nat) {
    CfgDominance.Reachable(log, x) && CfgDominance.Reachable(log, y) ==>
      !CfgDominance.Dominates(log, x, y) && !CfgDominance.Dominates(log, y, x)
  }

  /** Step `k` is in the side branch that is complete at `i`, and unordered with all later uses. */
  ghost predicate AsideUntil(log: seq<Event>, k: nat, i: nat)
    requires k < |log|
  {
    && k < i < |log| && MarksSide(log[i]) && InSide(log[i], log[k].src.block)
    && forall j :: i < j < |log| && log[j].Step? ==> Unordered(log, log[k].src.block, log[j].src.block)
  }

  ghost predicate SetAside(log: seq<Event>, k: nat, o: Occ, cl: Classification) {
    k < |log| && Records(log[k]) && Says(log[k].use.value, o, cl) && exists i :: AsideUntil(log, k, i)
  }

  /** In a body without let-else, each identifier of a closure or of the sink arguments of a
      call, outside sink arguments around and unless a `break` or `continue` leaves the side
      branch, is recorded in a block that no later use dominates or is dominated by. */
  lemma SideUsesAside(body: Block, cl: Classification, params: seq<string>, o: Occ)
    requires CfgInvariant.FitsB(body, false, true, cl) && o in DueB(body, cl, false) && o.Aside?
    ensures exists k :: SetAside(LowerBody(body, cl, params).log, k, o, cl)
  {
    hide LowerBody, DueB, OccB, Says, CfgInvariant.FitsB, CfgDominance.Dominates, CfgDominance.Reachable;
    var f := LowerBody(body, cl, params);
    LoweringShown(body, cl, params);
    assert Found(f.log, o, BodyWorld(body, cl), f.ren.nextId);
    var ev, mk :| ev in f.log && mk in f.log && IsUse(ev, o, BodyWorld(body, cl), f.ren.nextId) &&
        MarksSide(mk) && InSide(mk, ev.src.block);
    var k :| 0 <= k < |f.log| && f.log[k] == ev;
    var i :| 0 <= i < |f.log| && f.log[i] == mk;
    UseBeforeMark(body, cl, params, i, k);
    forall j | i < j < |f.log| && f.log[j].Step?
      ensures Unordered(f.log, ev.src.block, f.log[j].src.block)
    {
      if CfgDominance.Reachable(f.log, ev.src.block) && CfgDominance.Reachable(f.log, f.log[j].src.block) {
        CfgDominance.Incomparable(body, cl, params, i, j, ev.src.block);
      }
    }
    assert AsideUntil(f.log, k, i);
    assert SetAside(f.log, k, o, cl);
  }

  lemma UseBeforeMark(body: Block, cl: Classification, params: seq<string>, i: nat, k: nat)
    requires var log := LowerBody(body, cl, params).log;
      i < |log| && k < |log| && MarksSide(log[i]) && Records(log[k]) && InSide(log[i], log[k].src.block)
    ensures k < i
  {
    hide LowerBody;
    CfgInvariant.GoodLowering(body, cl, params, CfgGood.Mode(1, true, true, false));
    var log := LowerBody(body, cl, params).log;
    assert i < k ==> !CfgGood.Conf(log[i], log[k], false);
  }
}
