/** The graph that a log of writes stands for: the blocks with their uses and
    successors, as the builder keeps them. */
module CfgGraph {
  import opened Options
  import opened CfgSyntax
  import opened CfgLowering
  import opened CfgGood
  import opened CfgInvariant

  datatype BasicBlock = BasicBlock(uses: seq<UseSite>, successors: seq<nat>)

  /** The use an event records. */
  function UsesOf(ev: Event): seq<UseSite> {
    if ev.Step? && ev.use.Some? then [ev.use.value] else []
  }

  /** The uses of block `b`, in order. */
  function BlockUses(log: seq<Event>, b: nat): seq<UseSite> {
    if log == [] then []
    else
      var ev := log[|log| - 1];
      BlockUses(log[..|log| - 1], b) + (if ev.src.block == b then UsesOf(ev) else [])
  }

  /** The successors of block `b`, each once, in the order in which they came. */
  function Succs(log: seq<Event>, b: nat): seq<nat> {
    if log == [] then []
    else AddSucc(Succs(log[..|log| - 1], b), log[|log| - 1], b)
  }

  function AddSucc(s: seq<nat>, ev: Event, b: nat): seq<nat> {
    if ev.Jump? && ev.src.block == b && ev.dst !in s then s + [ev.dst] else s
  }

  function Blocks(log: seq<Event>, n: nat): seq<BasicBlock> {
    seq(n, b requires 0 <= b < n => BasicBlock(BlockUses(log, b), Succs(log, b)))
  }

  /** The successor lists are exactly the edges that were added, without repetition. */
  lemma {:induction false} SuccsAreEdges(log: seq<Event>, b: nat)
    ensures forall d :: d in Succs(log, b) <==> exists ev :: ev in log && ev.Jump? && ev.src.block == b && ev.dst == d
    ensures forall i, j :: 0 <= i < j < |Succs(log, b)| ==> Succs(log, b)[i] != Succs(log, b)[j]
  {
    if log != [] {
      var front := log[..|log| - 1];
      var last := log[|log| - 1];
      SuccsAreEdges(front, b);
      assert log == front + [last];
      forall d
        ensures d in Succs(log, b) <==> exists ev :: ev in log && ev.Jump? && ev.src.block == b && ev.dst == d
      {
        if last.Jump? && last.src.block == b && last.dst == d {
          assert last in log;
        }
        if ev :| ev in log && ev.Jump? && ev.src.block == b && ev.dst == d {
          assert ev in front || ev == last;
        }
      }
    }
  }

  // ── The builder's state as a value ───────────────────────────────

  datatype State = State(log: seq<Event>, next: nat, ren: Ren)

  function Plus(s: State, f: Frag): State {
    State(s.log + f.log, f.next, f.ren)
  }

  /** Where block `b` is continued. */
  function End(s: State, b: nat): Point {
    Point(b, Steps(s.log, b))
  }

  /** Writes concern blocks that exist. */
  ghost predicate Sane(s: State) {
    forall ev :: ev in s.log ==> ev.src.block < s.next && (ev.Jump? ==> ev.dst < s.next)
  }

  /** From `s`, where block `cur` is current, the writes of `f` have led to `s1`,
      where `out` is. Other blocks have been given edges at most. */
  ghost predicate Moved(s: State, cur: nat, f: Frag, c: Ctx, s1: State, out: nat) {
    && s1 == Plus(s, f) && f.next >= s.next && (out == cur || out >= s.next)
    && out == f.out.block && End(s1, out) == f.out && Sane(s1) && Wf(c, f.out, f.next)
    && (forall b: nat :: b < s.next && b != cur ==> End(s1, b) == End(s, b))
  }

  function Any(c: Ctx): Mode {
    Mode(c.exit, true, true, false)
  }

  lemma MovedBy(s: State, cur: nat, f: Frag, X: Targets, c: Ctx)
    requires Sane(s) && Wf(c, End(s, cur), s.next) && Good(f, X, End(s, cur), s.next, Any(c))
    requires forall x :: x in X ==> x.0 < s.next
    ensures Moved(s, cur, f, c, Plus(s, f), f.out.block)
  {
    hide Linked, Placed, MarksIn;
    var s1 := Plus(s, f);
    StepsCat(s.log, f.log, f.out.block);
    if f.out.block != cur {
      NoSteps(s.log, f.out.block);
    }
    forall b: nat | b < s.next && b != cur
      ensures End(s1, b) == End(s, b)
    {
      StepsCat(s.log, f.log, b);
      NoSteps(f.log, b);
    }
  }

  lemma ExitsKnown(c: Ctx, leaves: set<nat>, p: Point, n: nat)
    requires Wf(c, p, n)
    ensures forall x :: x in Exits(c, leaves) ==> x.0 < n
  {
  }

  // What the builder is to write for a construct, from the current end of block `cur`.

  function FragE(s: State, cur: nat, e: Expr, c: Ctx): Frag {
    LowerE(e, c, End(s, cur), s.next, s.ren)
  }

  function FragEs(s: State, cur: nat, xs: Exprs, c: Ctx): Frag {
    LowerEs(xs, c, End(s, cur), s.next, s.ren)
  }

  function FragBlock(s: State, cur: nat, b: Block, c: Ctx): Frag {
    LowerBlock(b, c, End(s, cur), s.next, s.ren)
  }

  function FragChain(s: State, cur: nat, bs: seq<Block>, c: Ctx): Frag {
    LowerChain(bs, c, End(s, cur), s.next, s.ren)
  }

  function FragDefs(s: State, cur: nat, pat: Pat): Frag {
    LowerDefs(pat.names, pat.span, End(s, cur), s.next, s.ren)
  }

  lemma MovedE(e: Expr, c: Ctx, s: State, cur: nat)
    requires Sane(s) && Wf(c, End(s, cur), s.next)
    ensures var f := FragE(s, cur, e, c); Moved(s, cur, f, c, Plus(s, f), f.out.block)
  {
    hide Good, Moved;
    ExitsKnown(c, LeavesE(e, Labels(c.loops)), End(s, cur), s.next);
    GoodE(e, c, End(s, cur), s.next, s.ren, Any(c));
    MovedBy(s, cur, LowerE(e, c, End(s, cur), s.next, s.ren), Exits(c, LeavesE(e, Labels(c.loops))), c);
  }

  lemma MovedBlock(b: Block, c: Ctx, s: State, cur: nat)
    requires Sane(s) && Wf(c, End(s, cur), s.next)
    ensures var f := FragBlock(s, cur, b, c); Moved(s, cur, f, c, Plus(s, f), f.out.block)
  {
    hide Good, Moved;
    ExitsKnown(c, LeavesB(b, Labels(c.loops)), End(s, cur), s.next);
    GoodBlock(b, c, End(s, cur), s.next, s.ren, Any(c));
    MovedBy(s, cur, LowerBlock(b, c, End(s, cur), s.next, s.ren), Exits(c, LeavesB(b, Labels(c.loops))), c);
  }

  lemma MovedChain(bs: seq<Block>, c: Ctx, s: State, cur: nat)
    requires Sane(s) && Wf(c, End(s, cur), s.next)
    ensures var f := FragChain(s, cur, bs, c); Moved(s, cur, f, c, Plus(s, f), f.out.block)
  {
    hide Good, Moved;
    ExitsKnown(c, {}, End(s, cur), s.next);
    GoodChain(bs, c, End(s, cur), s.next, s.ren, Any(c));
    MovedBy(s, cur, LowerChain(bs, c, End(s, cur), s.next, s.ren), Exits(c, {}), c);
  }

  lemma MovedDefs(pat: Pat, c: Ctx, s: State, cur: nat)
    requires Sane(s) && Wf(c, End(s, cur), s.next)
    ensures var f := FragDefs(s, cur, pat); Moved(s, cur, f, c, Plus(s, f), f.out.block)
  {
    hide Good, Moved;
    ExitsKnown(c, {}, End(s, cur), s.next);
    GoodDefs(pat.names, pat.span, End(s, cur), s.next, s.ren, c, Any(c));
    MovedBy(s, cur, FragDefs(s, cur, pat), Exits(c, {}), c);
  }

  lemma MovedNone(c: Ctx, s: State, cur: nat)
    requires Sane(s) && Wf(c, End(s, cur), s.next)
    ensures Moved(s, cur, Frag([], End(s, cur), s.next, s.ren), c, s, cur)
  {
  }

  lemma MovedCat(s: State, cur: nat, f: Frag, c: Ctx, s1: State, mid: nat, g: Frag, s2: State, out: nat)
    requires Moved(s, cur, f, c, s1, mid) && Moved(s1, mid, g, c, s2, out) && cur < s.next
    ensures Moved(s, cur, Cat(f, g), c, s2, out)
  {
    assert (s.log + f.log) + g.log == s.log + (f.log + g.log);
  }

  /** `MovedCat` for the next part of a list. */
  lemma StepMoved(s: State, cur: nat, done: Frag, c: Ctx, s1: State, mid: nat, one: Frag, s2: State, out: nat)
    requires Moved(s, cur, done, c, s1, mid) && Moved(s1, mid, one, c, s2, out) && cur < s.next
    ensures Moved(s, cur, Cat(done, one), c, s2, out)
    ensures End(s1, mid) == done.out && End(s2, out) == one.out && s2.next == one.next && s2.ren == one.ren
    ensures s1.next == done.next && s1.ren == done.ren
  {
    MovedCat(s, cur, done, c, s1, mid, one, s2, out);
  }

  /** A list that is done. */
  lemma CatEnd(s: State, cur: nat, done: Frag, c: Ctx, s1: State, out: nat)
    requires Moved(s, cur, done, c, s1, out)
    ensures Cat(done, Frag([], End(s1, out), s1.next, s1.ren)) == done
  {
    assert done.log + [] == done.log;
  }

  lemma AfterMoved(s: State, cur: nat, f: Frag, c: Ctx, s1: State, out: nat)
    requires Moved(s, cur, f, c, s1, out)
    ensures s1 == Plus(s, f) && f.next >= s.next && (out == cur || out >= s.next) && Sane(s1)
    ensures out == f.out.block && End(s1, out) == f.out && Wf(c, f.out, f.next)
  {
  }

  /** Another block has been given edges at most. */
  lemma Still(s: State, cur: nat, f: Frag, c: Ctx, s1: State, out: nat, b: nat)
    requires Moved(s, cur, f, c, s1, out) && b < s.next && b != cur
    ensures End(s1, b) == End(s, b)
  {
  }

  lemma CatAssoc(f: Frag, g: Frag, h: Frag)
    ensures Cat(f, Cat(g, h)) == Cat(Cat(f, g), h)
  {
    assert f.log + (g.log + h.log) == (f.log + g.log) + h.log;
  }

  lemma CatNone(p: Point, n: nat, r: Ren, g: Frag)
    ensures Cat(Frag([], p, n, r), g) == g
  {
    assert [] + g.log == g.log;
  }

  /** A block minted now starts empty, and it is fine to go on there. */
  lemma FreshBlock(s: State, c: Ctx, p: Point)
    requires Sane(s) && Wf(c, p, s.next)
    ensures End(s, s.next) == Point(s.next, 0) && Wf(c, Point(s.next, 0), s.next + 1)
  {
    NoSteps(s.log, s.next);
  }

  lemma FreshCleanup(c: Ctx, p: Point, n: nat)
    requires Wf(c, p, n)
    ensures Wf(CleanupCtx(c), p, n)
  {
  }

  lemma ScopeWf(c: Ctx, items: seq<Item>, p: Point, n: nat)
    ensures Wf(InScope(c, items), p, n) <==> Wf(c, p, n)
  {
  }

  lemma SameEnds(s: State, ev: Event)
    requires !ev.Step?
    ensures forall b: nat :: End(s.(log := s.log + [ev]), b) == End(s, b)
  {
    forall b: nat
      ensures End(s.(log := s.log + [ev]), b) == End(s, b)
    {
      assert (s.log + [ev])[..|s.log|] == s.log;
    }
  }

  /** The Define marker of one name. */
  function OneDef(name: string, span: nat, p: Point, n: nat, r: Ren): Frag {
    var r1 := Note(r, name);
    Frag([Step(p, Some(Rename(r1, DefineUse(name, span))))], Point(p.block, p.off + 1), n, r1)
  }

  lemma DefsStep(names: seq<string>, span: nat, done: Frag, s: State, b: nat)
    requires names != [] && done.out == End(Plus(s, done), b)
    ensures var one := OneDef(names[0], span, done.out, done.next, done.ren);
      && Cat(done, LowerDefs(names, span, done.out, done.next, done.ren))
         == Cat(Cat(done, one), LowerDefs(names[1..], span, one.out, done.next, one.ren))
      && Plus(s, Cat(done, one)) == State(Plus(s, done).log + one.log, done.next, one.ren)
      && one.out == End(Plus(s, Cat(done, one)), b)
  {
    var one := OneDef(names[0], span, done.out, done.next, done.ren);
    CatAssoc(done, one, LowerDefs(names[1..], span, one.out, done.next, one.ren));
    Snoc(Plus(s, done).log, one.log[0], b);
    assert (s.log + done.log) + one.log == s.log + (done.log + one.log);
  }

  // ── How writes make up fragments ─────────────────────────────────

  function Write(s: State, ev: Event): State {
    s.(log := s.log + [ev])
  }

  function Mint(s: State): State {
    s.(next := s.next + 1)
  }

  lemma CatPlus(s: State, f: Frag, g: Frag)
    ensures Plus(Plus(s, f), g) == Plus(s, Cat(f, g))
  {
    assert (s.log + f.log) + g.log == s.log + (f.log + g.log);
  }

  lemma EnterPlus(s: State, p: Point, g: Frag)
    ensures Plus(Write(Mint(s), Jump(p, s.next, false)), g) == Plus(s, Enter(p, s.next, g))
  {
    assert (s.log + [Jump(p, s.next, false)]) + g.log == s.log + ([Jump(p, s.next, false)] + g.log);
  }

  lemma ClosePlus(s: State, f: Frag, j1: Event, j2: Event)
    ensures Mint(Plus(s, f)) == Plus(s, Close(f, []))
    ensures Write(Mint(Plus(s, f)), j1) == Plus(s, Close(f, [j1]))
    ensures Mint(Write(Plus(s, f), j1)) == Plus(s, Close(f, [j1]))
    ensures Write(Write(Mint(Plus(s, f)), j1), j2) == Plus(s, Close(f, [j1, j2]))
    ensures Write(Mint(Write(Plus(s, f), j1)), j2) == Plus(s, Close(f, [j1, j2]))
  {
    assert f.log + [] == f.log;
    assert (s.log + f.log) + [j1] == s.log + (f.log + [j1]);
    assert ((s.log + f.log) + [j1]) + [j2] == s.log + (f.log + [j1, j2]);
  }

  /** A branch through the block minted next. */
  lemma BranchPlus(s: State, q: Point, merge: nat, h: Frag)
    ensures Write(Plus(Write(Mint(s), Jump(q, s.next, false)), h), Jump(h.out, merge, false)) ==
        Plus(s, Branch(q, merge, s.next, h))
  {
    var a := Jump(q, s.next, false);
    var b := Jump(h.out, merge, false);
    assert ((s.log + [a]) + h.log) + [b] == s.log + (([a] + h.log) + [b]);
  }

  lemma MergePlus(s: State, k: Frag, j: Event, g: Frag)
    ensures Plus(Write(Mint(Plus(s, k)), j), g) == Plus(s, Merge(k, [j], g))
    ensures Plus(Mint(Plus(s, k)), g) == Plus(s, Merge(k, [], g))
  {
    assert ((s.log + k.log) + [j]) + g.log == s.log + ((k.log + [j]) + g.log);
    assert (s.log + k.log) + g.log == s.log + ((k.log + []) + g.log);
  }

  function BranchE(s: State, q: Point, merge: nat, e: Expr, c: Ctx): Frag {
    Branch(q, merge, s.next, LowerE(e, c, Point(s.next, 0), s.next + 1, s.ren))
  }

  lemma SameBlockWf(c: Ctx, p: Point, q: Point, n: nat, k: nat)
    requires Wf(c, p, n) && p.block == q.block && k >= n
    ensures Wf(c, q, k)
  {
  }

  lemma LaterWf(c: Ctx, p: Point, n: nat, k: nat)
    requires Wf(c, p, n) && k >= n
    ensures Wf(c, p, k)
  {
  }

  lemma IfPlus(s: State, cur: nat, e: Expr, c: Ctx)
    requires e.If?
    ensures var f := FragE(s, cur, e.cond, c); var t := LowerThen(e.pat, e.thenBranch, c, f.next, f.ren);
      var s2 := Plus(Write(Mint(Plus(s, f)), Jump(f.out, f.next, false)), t);
      var s3 := Write(Mint(s2), Jump(t.out, t.next, false));
      && FragE(s, cur, e, c).out == Point(t.next, 0)
      && (e.elseBranch.None? ==> Write(s3, Jump(f.out, t.next, false)) == Plus(s, FragE(s, cur, e, c)))
      && (e.elseBranch.Some? ==>
            Plus(s3, BranchE(s3, f.out, t.next, e.elseBranch.value, c)) == Plus(s, FragE(s, cur, e, c)))
  {
    var f := FragE(s, cur, e.cond, c);
    var t := LowerThen(e.pat, e.thenBranch, c, f.next, f.ren);
    var k := Cat(f, Enter(f.out, f.next, t));
    EnterPlus(Plus(s, f), f.out, t);
    CatPlus(s, f, Enter(f.out, f.next, t));
    hide LowerThen, Plus;
    match e.elseBranch
    case None => ClosePlus(s, k, Jump(t.out, t.next, false), Jump(f.out, t.next, false));
    case Some(x) =>
      var h := LowerE(x, c, Point(t.next + 1, 0), t.next + 2, t.ren);
      MergePlus(s, k, Jump(t.out, t.next, false), Branch(f.out, t.next, t.next + 1, h));
  }

  lemma SidePlus(s: State, p: Point, h: Frag, nested: bool, closed: bool)
    ensures var n := s.next;
      Write(Plus(Write(Write(Mint(Mint(s)), Jump(p, n, false)), Jump(p, n + 1, false)), h),
          SinkMark(Point(n, 0), n + 2, h.next, nested, closed))
      == Plus(s, Side(p, n, h, nested, closed))
  {
    var a := Jump(p, s.next, false);
    var b := Jump(p, s.next + 1, false);
    var m := SinkMark(Point(s.next, 0), s.next + 2, h.next, nested, closed);
    assert (((s.log + [a]) + [b]) + h.log) + [m] == s.log + (([a, b] + h.log) + [m]);
  }

  lemma HeadingPlus(s: State, p: Point, f: Frag)
    ensures Write(Mint(Write(Mint(Plus(Write(Mint(s), Jump(p, s.next, false)), f)), Jump(f.out, f.next, false))),
        Jump(f.out, f.next + 1, false))
      == Plus(s, Heading(p, s.next, f))
  {
    var a := Jump(p, s.next, false);
    var b := Jump(f.out, f.next, false);
    var d := Jump(f.out, f.next + 1, false);
    assert ((((s.log + [a]) + f.log) + [b]) + [d]) == s.log + (([a] + f.log) + [b, d]);
  }

  lemma LoopPlus(s: State, n: nat, h: Frag, g: Frag, r: Ren)
    requires h.next > 0
    ensures Write(Write(Plus(Plus(s, h), g), Jump(g.out, n, true)), LoopMark(Point(n, 0), g.next, h.next - 1)).(ren :=
        r)
      == Plus(s, LoopBack(n, h, g, r))
  {
    var a := Jump(g.out, n, true);
    var m := LoopMark(Point(n, 0), g.next, h.next - 1);
    assert ((((s.log + h.log) + g.log) + [a]) + [m]) == s.log + ((h.log + g.log) + [a, m]);
  }

  // ── Statements ───────────────────────────────────────────────────

  /** What a statement registers with its scope. */
  function Registered(s: Stmt, items: seq<Item>): seq<Item> {
    match s
    case Defer(body) => Push(items, Item(false, body))
    case ErrDefer(body) => Push(items, Item(true, body))
    case _ => items
  }

  /** What a statement writes at its place; `c` is the context inside its scope. */
  function StmtFrag(s: Stmt, c: Ctx, p: Point, n: nat, r: Ren): Frag {
    match s
    case Defer(_) => Frag([], p, n, r)
    case ErrDefer(_) => Frag([], p, n, r)
    case LetElse(pat, v, diverge) =>
      var f := LowerE(v, c, p, n, r);
      var g := LowerBlock(diverge, c, Point(f.next, 0), f.next + 1, NoteAll(pat.names, f.ren));
      Aside(f, g).(ren := if AnySeen(pat.names, f.ren) then NoteAll(pat.names, PushFrame(g.ren, Sh)) else g.ren)
    case _ => LowerPlain(s, c, p, n, r)
  }

  lemma RestStep(s: Stmt, rest: Block, items: seq<Item>, c: Ctx, p: Point, n: nat, r: Ren)
    ensures var f := StmtFrag(s, InScope(c, items), p, n, r);
      LowerRest(Then(s, rest), items, c, p, n, r) ==
          Cat(f, LowerRest(rest, Registered(s, items), c, f.out, f.next, f.ren))
    ensures |StmtFrag(s, InScope(c, items), p, n, r).ren.stack| >= |r.stack|
    ensures StmtFrag(s, InScope(c, items), p, n, r).next >= n
  {
    hide LowerE, LowerBlock, LowerPlain, LowerChain, AnySeen;
    match s
    case Defer(body) => CatNone(p, n, r, LowerRest(rest, Push(items, Item(false, body)), c, p, n, r));
    case ErrDefer(body) => CatNone(p, n, r, LowerRest(rest, Push(items, Item(true, body)), c, p, n, r));
    case LetElse(_, _, _) =>
    case _ =>
  }

  function FragRest(s: State, cur: nat, b: Block, items: seq<Item>, c: Ctx): Frag {
    LowerRest(b, items, c, End(s, cur), s.next, s.ren)
  }

  lemma RegisteredSize(st: Stmt, rest: Block, items: seq<Item>)
    ensures SizeB(rest) + ItemsSize(Registered(st, items)) <= SizeB(Then(st, rest)) + ItemsSize(items)
    ensures SizeS(st) + SizeB(rest) < SizeB(Then(st, rest))
  {
    match st
    case Defer(body) => PushSize(items, Item(false, body));
    case ErrDefer(body) => PushSize(items, Item(true, body));
    case _ =>
  }

  /** `done` and the lowering of `rest` from here make up the lowering of the block. */
  ghost predicate RestOf(s0: State, cur: nat, b: Block, items0: seq<Item>, done: Frag, s: State, out: nat, rest: Block,
          items: seq<Item>, c: Ctx) {
    FragRest(s0, cur, b, items0, c) == Cat(done, FragRest(s, out, rest, items, c))
  }

  lemma RestNone(s: State, cur: nat, b: Block, c: Ctx)
    ensures RestOf(s, cur, b, [], Frag([], End(s, cur), s.next, s.ren), s, cur, b, [], c)
  {
    CatNone(End(s, cur), s.next, s.ren, FragRest(s, cur, b, [], c));
  }

  lemma RestNext(s0: State, cur: nat, b: Block, done: Frag, s: State, mid: nat, rest: Block, items: seq<Item>, c: Ctx,
          s1: State, out: nat)
    requires rest.Then? && RestOf(s0, cur, b, [], done, s, mid, rest, items, c)
    requires Moved(s, mid, StmtFrag(rest.first, InScope(c, items), End(s, mid), s.next, s.ren), c, s1, out)
    ensures var one := StmtFrag(rest.first, InScope(c, items), End(s, mid), s.next, s.ren);
      RestOf(s0, cur, b, [], Cat(done, one), s1, out, rest.rest, Registered(rest.first, items), c) &&
          |s1.ren.stack| >= |s.ren.stack|
  {
    hide StmtFrag, LowerRest;
    var one := StmtFrag(rest.first, InScope(c, items), End(s, mid), s.next, s.ren);
    RestStep(rest.first, rest.rest, items, c, End(s, mid), s.next, s.ren);
    CatAssoc(done, one, FragRest(s1, out, rest.rest, Registered(rest.first, items), c));
  }

  /** The end of a block: its statements, its final expression and its own defers. */
  lemma ScopePlus(s0: State, cur: nat, b: Block, c: Ctx, done: Frag, s1: State, mid: nat, final: Expr,
          items: seq<Item>, s2: State, mid2: nat)
    requires Moved(s0, cur, done, c, s1, mid) && RestOf(s0, cur, b, [], done, s1, mid, Done(final), items, c)
    requires var f := FragE(s1, mid, final, InScope(c, items));
        s2 == Plus(s1, f) && mid2 == f.out.block && End(s2, mid2) == f.out
    ensures var g := FragChain(s2, mid2, FrameBodies(items, false), c); var whole := FragBlock(s0, cur, b, c);
      && Plus(s0, whole) == Plus(s2, g).(ren := g.ren.(stack := g.ren.stack[..|s0.ren.stack|])) && whole.out == g.out
      && |g.ren.stack| == |s2.ren.stack| == |s1.ren.stack|
  {
    hide LowerE, LowerChain;
    var f := FragE(s1, mid, final, InScope(c, items));
    var g := FragChain(s2, mid2, FrameBodies(items, false), c);
    FrameBodiesSize(items, false);
    assert FragRest(s1, mid, Done(final), items, c) == Cat(f, g);
    CatPlus(s0, done, Cat(f, g));
    CatPlus(s1, f, g);
  }

  function FragPlain(s: State, cur: nat, st: Stmt, c: Ctx): Frag
    requires IsPlain(st)
  {
    LowerPlain(st, c, End(s, cur), s.next, s.ren)
  }

  lemma LetPlus(s: State, cur: nat, st: Stmt, c: Ctx)
    requires st.Let?
    ensures var f := FragE(s, cur, st.value, c); var r1 := ShadowIfSeen(st.pat.names, f.ren);
      && Plus(s, FragPlain(s, cur, st, c)) ==
          Plus(Plus(s, f).(ren := r1), LowerDefs(st.pat.names, st.pat.span, f.out, f.next, r1))
      && FragPlain(s, cur, st, c).out.block == f.out.block
  {
    hide LowerE, LowerDefs;
    var f := FragE(s, cur, st.value, c);
    CatPlus(s, f, LowerIntro(st, f.out, f.next, f.ren));
  }

  lemma UninitPlus(s: State, cur: nat, name: string, c: Ctx)
    ensures Plus(s, FragPlain(s, cur, LetUninit(name), c)) == s.(ren := Note(ShadowIfSeen([name], s.ren), name))
    ensures FragPlain(s, cur, LetUninit(name), c).out.block == cur
    ensures ShadowIfSeen([name], s.ren) == if name in s.ren.seen then PushFrame(s.ren, Sh) else s.ren
  {
    assert [name][0] == name;
    assert LowerE(Leaf, c, End(s, cur), s.next, s.ren) == Frag([], End(s, cur), s.next, s.ren);
    assert s.log + [] == s.log;
  }

  lemma AssignPlus(s: State, cur: nat, st: Stmt, c: Ctx)
    requires st.Assign?
    ensures var f := FragE(s, cur, st.value, c); var g := LowerE(st.target, c, f.out, f.next, f.ren);
      Plus(s, FragPlain(s, cur, st, c)) == Plus(Plus(s, f), g) && FragPlain(s, cur, st, c).out == g.out
  {
    var f := FragE(s, cur, st.value, c);
    var g := LowerE(st.target, c, f.out, f.next, f.ren);
    var xs := ECons(st.value, ECons(st.target, ENil));
    assert LowerEs(ECons(st.target, ENil), c, f.out, f.next, f.ren) == Cat(g, Frag([], g.out, g.next, g.ren));
    assert LowerE(Ops(true, xs), c, End(s, cur), s.next, s.ren) ==
        Cat(f, LowerEs(ECons(st.target, ENil), c, f.out, f.next, f.ren));
    var none := Frag([], g.out, g.next, g.ren);
    assert Cat(g, none) == g by { assert g.log + [] == g.log; }
    PlainPlus(s, cur, st, c);
    CatPlus(s, f, g);
  }

  lemma PlainPlus(s: State, cur: nat, st: Stmt, c: Ctx)
    requires IsPlain(st) && !st.Let? && !st.LetUninit?
    ensures FragPlain(s, cur, st, c) == LowerE(StmtExpr(st), c, End(s, cur), s.next, s.ren)
  {
    hide LowerE;
    var f := LowerE(StmtExpr(st), c, End(s, cur), s.next, s.ren);
    assert f.log + [] == f.log;
  }

  lemma AsidePlus(s: State, f: Frag, r: Ren, g: Frag)
    ensures Write(Plus(Write(Mint(Plus(s, f).(ren := r)), Jump(f.out, f.next, false)), g), Step(f.out, None)) ==
        Plus(s, Aside(f, g))
  {
    var a := Jump(f.out, f.next, false);
    var pass := Step(f.out, None);
    assert (((s.log + f.log) + [a]) + g.log) + [pass] == s.log + (((f.log + [a]) + g.log) + [pass]);
  }

  /** The branch of a let-else leaves the end of the block where it was. */
  lemma AsideEnd(s: State, f: Frag, r: Ren, s1: State, g: Frag, c: Ctx, s2: State, end: nat)
    requires End(Plus(s, f), f.out.block) == f.out && f.out.block < f.next
    requires s1 == Write(Mint(Plus(s, f).(ren := r)), Jump(f.out, f.next, false)) && Moved(s1, f.next, g, c, s2, end)
    ensures End(s2, f.out.block) == f.out
  {
    hide Wf, Sane;
    Snoc(s.log + f.log, Jump(f.out, f.next, false), f.out.block);
    assert End(s2, f.out.block) == End(s1, f.out.block);
  }

  /** An expression in a scope has moved the builder for what is outside the scope, too. */
  lemma OutOfScope(s: State, cur: nat, f: Frag, c: Ctx, items: seq<Item>, s1: State, out: nat)
    requires Moved(s, cur, f, InScope(c, items), s1, out)
    ensures Moved(s, cur, f, c, s1, out)
  {
  }

  lemma MovedStmt(st: Stmt, items: seq<Item>, c: Ctx, s: State, cur: nat)
    requires Sane(s) && Wf(c, End(s, cur), s.next)
    ensures var f := StmtFrag(st, InScope(c, items), End(s, cur), s.next, s.ren);
        Moved(s, cur, f, c, Plus(s, f), f.out.block)
  {
    hide Good, Moved, LowerE, LowerBlock, LowerPlain;
    var p := End(s, cur);
    var m := Any(c);
    var leaves := LeavesS(st, Labels(c.loops));
    ExitsKnown(c, leaves, p, s.next);
    var f := StmtFrag(st, InScope(c, items), p, s.next, s.ren);
    match st
    case Defer(_) =>
      MovedNone(c, s, cur);
      assert Plus(s, f) == s by { assert s.log + [] == s.log; }
    case ErrDefer(_) =>
      MovedNone(c, s, cur);
      assert Plus(s, f) == s by { assert s.log + [] == s.log; }
    case LetElse(_, _, _) =>
      var f0 := LowerE(st.value, InScope(c, items), p, s.next, s.ren);
      var g0 := LowerBlock(st.diverge, InScope(c, items), Point(f0.next, 0), f0.next + 1,
          NoteAll(st.pat.names, f0.ren));
      LetElseFront(st, items, c, p, s.next, s.ren, m, f0, g0, leaves);
      GoodRen(Aside(f0, g0), f.ren, Exits(c, leaves), p, s.next, m);
      MovedBy(s, cur, f, Exits(c, leaves), c);
    case _ =>
      GoodPlain(st, InScope(c, items), p, s.next, s.ren, m);
      assert Exits(InScope(c, items), leaves) == Exits(c, leaves);
      MovedBy(s, cur, f, Exits(c, leaves), c);
  }

  lemma GoodRen(f: Frag, r: Ren, X: Targets, p: Point, n: nat, m: Mode)
    requires Good(f, X, p, n, m)
    ensures Good(f.(ren := r), X, p, n, m)
  {
    hide Body;
  }

  // ── Cleanup chains and sink arguments ────────────────────────────

  lemma {:induction false} ChainAppend(a: seq<Block>, b: seq<Block>, c: Ctx, p: Point, n: nat, r: Ren)
    ensures var f := LowerChain(a, c, p, n, r);
        LowerChain(a + b, c, p, n, r) == Cat(f, LowerChain(b, c, f.out, f.next, f.ren))
    decreases |a|
  {
    if a == [] {
      assert a + b == b;
      CatNone(p, n, r, LowerChain(b, c, p, n, r));
    } else {
      assert (a + b)[1..] == a[1..] + b;
      var f := LowerBlock(a[0], CleanupCtx(c), Point(n, 0), n + 1, PushFrame(r, Cu));
      var k := LowerChain(a[1..], c, f.out, f.next, PopFrame(f.ren));
      ChainAppend(a[1..], b, c, f.out, f.next, PopFrame(f.ren));
      CatAssoc(Enter(p, n, f), k, LowerChain(b, c, k.out, k.next, k.ren));
    }
  }

  lemma ChainNone(c: Ctx, s: State, cur: nat)
    requires Sane(s) && Wf(c, End(s, cur), s.next)
    ensures Moved(s, cur, FragChain(s, cur, [], c), c, s, cur)
  {
    assert s.log + [] == s.log;
  }

  lemma ChainMoved(s: State, cur: nat, a: seq<Block>, c: Ctx, s1: State, mid: nat, b: seq<Block>, s2: State, out: nat)
    requires Moved(s, cur, FragChain(s, cur, a, c), c, s1, mid) &&
        Moved(s1, mid, FragChain(s1, mid, b, c), c, s2, out) && cur < s.next
    ensures Moved(s, cur, FragChain(s, cur, a + b, c), c, s2, out)
  {
    hide LowerChain;
    ChainAppend(a, b, c, End(s, cur), s.next, s.ren);
    MovedCat(s, cur, FragChain(s, cur, a, c), c, s1, mid, FragChain(s1, mid, b, c), s2, out);
  }

  lemma {:induction false} ItemSize(items: seq<Item>, i: nat)
    requires i < |items|
    ensures SizeB(items[i].body) < ItemsSize(items)
    decreases |items|
  {
    if i < |items| - 1 {
      ItemSize(items[..|items| - 1], i);
    }
  }

  lemma {:induction false} FrameSize(frames: seq<seq<Item>>, i: nat)
    requires i < |frames|
    ensures ItemsSize(frames[i]) <= FramesSize(frames)
    decreases |frames|
  {
    if i < |frames| - 1 {
      FrameSize(frames[..|frames| - 1], i);
    }
  }

  // The bodies still to be lowered while a scope's items, or the scopes, are walked from the end.

  lemma PickAll(items: seq<Item>, err: bool)
    ensures [] + Pick(items[..|items|], err) == Pick(items, err)
  {
    assert items[..|items|] == items;
  }

  lemma AppendAssoc<T>(a: seq<T>, b: seq<T>, c: seq<T>)
    ensures (a + b) + c == a + (b + c)
  {
  }

  lemma PickNext(items: seq<Item>, i: nat, err: bool, done: seq<Block>)
    requires i < |items| && done + Pick(items[..i + 1], err) == Pick(items, err)
    ensures (if items[i].err == err then done + [items[i].body] else done) + Pick(items[..i], err) == Pick(items, err)
  {
    var front := items[..i + 1];
    var rest := Pick(items[..i], err);
    assert front[..i] == items[..i] && front[i] == items[i];
    if items[i].err == err {
      assert Pick(front, err) == [items[i].body] + rest;
      AppendAssoc(done, [items[i].body], rest);
    } else {
      assert Pick(front, err) == [] + rest == rest;
    }
  }

  lemma BodiesNext(frames: seq<seq<Item>>, i: nat, depth: nat, err: bool, done: seq<Block>)
    requires depth <= i < |frames| && done + Bodies(frames[..i + 1], depth, err) == Bodies(frames, depth, err)
    ensures (done + FrameBodies(frames[i], err)) + Bodies(frames[..i], depth, err) == Bodies(frames, depth, err)
  {
    hide FrameBodies;
    assert frames[..i + 1][..i] == frames[..i];
  }

  lemma BodiesEnd(frames: seq<seq<Item>>, depth: nat, err: bool, done: seq<Block>)
    requires depth <= |frames| && done + Bodies(frames[..depth], depth, err) == Bodies(frames, depth, err)
    ensures done == Bodies(frames, depth, err)
  {
    assert done + [] == done;
  }

  /** One cleanup body as a chain. */
  lemma BodyPlus(s: State, p: Point, body: Block, c: Ctx)
    ensures var n := s.next; var f := LowerBlock(body, CleanupCtx(c), Point(n, 0), n + 1, PushFrame(s.ren, Cu));
      && LowerChain([body], c, p, n, s.ren) == Enter(p, n, f).(ren := PopFrame(f.ren))
      && Plus(Write(Mint(s), Jump(p, n, false)).(ren := PushFrame(s.ren, Cu)), f).(ren := PopFrame(f.ren)) ==
          Plus(s, LowerChain([body], c, p, n, s.ren))
  {
    hide LowerBlock;
    var n := s.next;
    var f := LowerBlock(body, CleanupCtx(c), Point(n, 0), n + 1, PushFrame(s.ren, Cu));
    assert [body][1..] == [];
    assert Enter(p, n, f).log + [] == Enter(p, n, f).log;
    assert (s.log + [Jump(p, n, false)]) + f.log == s.log + ([Jump(p, n, false)] + f.log);
  }

  /** The sink arguments of a call, in order. */
  function SinkExprs(args: Args, cl: Classification): (xs: seq<Expr>)
    ensures xs == [] <==> !HasSink(args, cl)
  {
    match args
    case ANil => []
    case ACons(span, v, t) => (if span in cl.sinks then [v] else []) + SinkExprs(t, cl)
  }

  lemma {:induction false} SinkSizes(args: Args, cl: Classification)
    ensures forall x :: x in SinkExprs(args, cl) ==> SizeE(x) < SizeArgs(args)
  {
    if args.ACons? {
      SinkSizes(args.tail, cl);
    }
  }

  /** `LowerSinks` over the collected arguments. */
  function SinkFrag(xs: seq<Expr>, c: Ctx, s: Point, n: nat, r: Ren): Frag {
    if xs == [] then Frag([], s, n, r)
    else
      var f := LowerE(xs[0], c, s, n, r);
      Cat(f, SinkFrag(xs[1..], c, Point(s.block, s.off + Steps(f.log, s.block)), f.next, f.ren))
  }

  lemma {:induction false} SinksCollected(args: Args, c: Ctx, s: Point, n: nat, r: Ren)
    ensures LowerSinks(args, c, s, n, r) == SinkFrag(SinkExprs(args, c.cl), c, s, n, r)
    decreases SizeArgs(args)
  {
    match args
    case ANil =>
    case ACons(span, v, t) =>
      if span !in c.cl.sinks {
        SinksCollected(t, c, s, n, r);
        assert [] + SinkExprs(t, c.cl) == SinkExprs(t, c.cl);
      } else {
        var f := LowerE(v, c, s, n, r);
        SinksCollected(t, c, Point(s.block, s.off + Steps(f.log, s.block)), f.next, f.ren);
        assert ([v] + SinkExprs(t, c.cl))[1..] == SinkExprs(t, c.cl);
      }
  }

  function FragArgs(s: State, cur: nat, args: Args, c: Ctx): Frag {
    LowerArgs(args, c, End(s, cur), s.next, s.ren)
  }

  ghost predicate SinksOf(xs: seq<Expr>, c: Ctx, s0: State, side: nat, done: Frag, s: State, rest: seq<Expr>) {
    var whole := SinkFrag(xs, c, End(s0, side), s0.next, s0.ren);
    var after := SinkFrag(rest, c, End(s, side), s.next, s.ren);
    whole.log == done.log + after.log && whole.next == after.next && whole.ren == after.ren
  }

  lemma SinkNone(xs: seq<Expr>, c: Ctx, s: State, side: nat)
    ensures SinksOf(xs, c, s, side, Frag([], End(s, side), s.next, s.ren), s, xs[0..])
  {
    assert xs[0..] == xs;
    var f := SinkFrag(xs, c, End(s, side), s.next, s.ren);
    assert [] + f.log == f.log;
  }

  lemma SinkNext(xs: seq<Expr>, c: Ctx, s0: State, side: nat, done: Frag, s: State, rest: seq<Expr>)
    requires rest != [] && SinksOf(xs, c, s0, side, done, s, rest) && s == Plus(s0, done)
    ensures var one := FragE(s, side, rest[0], c);
      SinksOf(xs, c, s0, side, Cat(done, one), Plus(s, one), rest[1..]) && Plus(s, one) == Plus(s0, Cat(done, one))
  {
    hide LowerE;
    var one := FragE(s, side, rest[0], c);
    var s1 := Plus(s, one);
    StepsCat(s.log, one.log, side);
    var after := SinkFrag(rest[1..], c, End(s1, side), s1.next, s1.ren);
    assert SinkFrag(rest, c, End(s, side), s.next, s.ren) == Cat(one, after);
    CatPlus(s0, done, one);
    assert done.log + (one.log + after.log) == (done.log + one.log) + after.log;
  }

  /** The side branch for the sink arguments `xs` of a call. */
  function FragSinks(s: State, q: Point, xs: seq<Expr>, closed: bool, c: Ctx): Frag {
    Side(q, s.next, SinkFrag(xs, c.(inSink := true), Point(s.next, 0), s.next + 2, s.ren), c.inSink, closed)
  }

  lemma CallPlus(s: State, cur: nat, e: Expr, c: Ctx)
    requires e.MethodCall?
    ensures var f := FragE(s, cur, e.receiver, c); var g := LowerArgs(e.actuals, c, f.out, f.next, f.ren);
      var s2 := Plus(Plus(s, f), g);
      var xs := SinkExprs(e.actuals, c.cl);
      var h := FragSinks(s2, g.out, xs, LeavesSinks(e.actuals, c.cl, Labels(c.loops)) == {}, c);
      && (xs == [] ==> s2 == Plus(s, FragE(s, cur, e, c)) && FragE(s, cur, e, c).out == g.out)
      && (xs != [] ==> Plus(s2, h) == Plus(s, FragE(s, cur, e, c)) && FragE(s, cur, e, c).out == h.out)
  {
    var f := FragE(s, cur, e.receiver, c);
    var g := LowerArgs(e.actuals, c, f.out, f.next, f.ren);
    var k := Cat(f, g);
    CatPlus(s, f, g);
    PlusNext(s, k);
    hide LowerArgs, SinkFrag, LeavesSinks, Plus;
    if HasSink(e.actuals, c.cl) {
      var c1 := c.(inSink := true);
      SinksCollected(e.actuals, c1, Point(k.next, 0), k.next + 2, k.ren);
      var h := FragSinks(Plus(s, k), k.out, SinkExprs(e.actuals, c.cl), LeavesSinks(e.actuals, c.cl, Labels(c.loops)) ==
          {}, c);
      CatPlus(s, k, h);
    }
  }

  lemma PlusNext(s: State, f: Frag)
    ensures Plus(s, f).next == f.next && Plus(s, f).ren == f.ren
  {
  }

  lemma ClosurePlus(s: State, cur: nat, e: Expr, c: Ctx)
    requires e.Closure?
    ensures var n := s.next; var p := End(s, cur);
      var s1 := Write(Write(Mint(Mint(s)), Jump(p, n, false)), Jump(p, n + 1, false));
      var h := LowerE(e.code, c, Point(n, 0), n + 2, s.ren);
      && Write(Plus(s1, h), SinkMark(Point(n, 0), n + 2, h.next, c.inSink, LeavesE(e.code, Labels(c.loops)) == {})) ==
          Plus(s, FragE(s, cur, e, c))
      && FragE(s, cur, e, c).out == Point(n + 1, 0)
  {
    SidePlus(s, End(s, cur), LowerE(e.code, c, Point(s.next, 0), s.next + 2, s.ren), c.inSink,
        LeavesE(e.code, Labels(c.loops)) == {});
  }

  // ── Exits ────────────────────────────────────────────────────────

  /** An exit from block `cur`: the cleanup, then the edge; nothing for an unknown label. */
  lemma ExitPlus(s: State, cur: nat, o: Outcome, c: Ctx)
    requires o != Normal
    ensures var f := Frag([], End(s, cur), s.next, s.ren);
      match TargetOf(c, o)
      case None => Mint(s) == Plus(s, LowerExit(f, o, c))
      case Some(t) =>
        var g := FragChain(s, cur, t.bodies, c);
        Mint(Write(Plus(s, g), Jump(g.out, t.dst, t.back))) == Plus(s, LowerExit(f, o, c))
  {
    hide LowerChain, TargetOf;
    var f := Frag([], End(s, cur), s.next, s.ren);
    match TargetOf(c, o)
    case None => assert s.log + ([] + []) == s.log;
    case Some(t) =>
      var g := FragChain(s, cur, t.bodies, c);
      CatNone(End(s, cur), s.next, s.ren, g);
      assert (s.log + g.log) + [Jump(g.out, t.dst, t.back)] == s.log + (g.log + [Jump(g.out, t.dst, t.back)]);
  }

  /** Evaluating the exit's value first. */
  lemma ExitAfter(s: State, cur: nat, f: Frag, o: Outcome, c: Ctx)
    requires o != Normal
    ensures Plus(Plus(s, f), LowerExit(Frag([], f.out, f.next, f.ren), o, c)) == Plus(s, LowerExit(f, o, c))
    ensures LowerExit(Frag([], f.out, f.next, f.ren), o, c).out == LowerExit(f, o, c).out
  {
    hide Unwind, TargetOf;
    match TargetOf(c, o)
    case None => assert (s.log + f.log) + ([] + []) == s.log + (f.log + []);
    case Some(t) =>
      var u := Unwind(o, c, f.out, f.next, f.ren);
      var j := [Jump(u.out, t.dst, t.back)];
      assert (s.log + f.log) + (([] + u.log) + j) == s.log + ((f.log + u.log) + j);
  }

  lemma LeavingPlus(s: State, cur: nat, e: Expr, c: Ctx)
    ensures e.Break? ==> FragE(s, cur, e, c) == LowerExit(FragE(s, cur, e.value, c), Brk(e.lbl), c)
    ensures e.Return? ==> FragE(s, cur, e, c) == LowerExit(FragE(s, cur, e.value, c), Ret, c)
    ensures e.Continue? ==> FragE(s, cur, e, c) == LowerExit(Frag([], End(s, cur), s.next, s.ren), Cont(e.lbl), c)
    ensures e.Break? ==> FragE(s, cur, e, c).out == Point(FragE(s, cur, e, c).next - 1, 0)
    ensures e.Return? ==> FragE(s, cur, e, c).out == Point(FragE(s, cur, e, c).next - 1, 0)
    ensures e.Continue? ==> FragE(s, cur, e, c).out == Point(FragE(s, cur, e, c).next - 1, 0)
  {
    hide Unwind;
  }

  /** Where an exit leads is known. */
  lemma KnownTarget(c: Ctx, o: Outcome, p: Point, n: nat)
    requires o != Normal && Wf(c, p, n)
    ensures TargetOf(c, o).Some? ==> TargetOf(c, o).value.dst < n
    ensures TargetOf(c, Ret) == Some(Target(Bodies(c.frames, 0, true), c.exit, false)) && c.exit < n
  {
  }

  lemma QuestionPlus(s: State, cur: nat, e: Expr, c: Ctx)
    requires e.Question?
    ensures var f := FragE(s, cur, e.inner, c); var g := LowerChain(Bodies(c.frames, 0, true), c, f.out, f.next, f.ren);
      && Write(Mint(Write(Plus(Plus(s, f), g), Jump(g.out, c.exit, false))), Jump(f.out, g.next, false)) ==
          Plus(s, FragE(s, cur, e, c))
      && FragE(s, cur, e, c).out == Point(g.next, 0)
  {
    var f := FragE(s, cur, e.inner, c);
    var g := Unwind(Ret, c, f.out, f.next, f.ren);
    CatPlus(s, f, g);
    ClosePlus(s, Cat(f, g), Jump(g.out, c.exit, false), Jump(f.out, g.next, false));
  }

  /** Cleanup is not recorded in the block it starts from. */
  lemma ChainElsewhere(bs: seq<Block>, c: Ctx, s: State, cur: nat)
    requires Sane(s) && Wf(c, End(s, cur), s.next)
    ensures End(Plus(s, FragChain(s, cur, bs, c)), cur) == End(s, cur)
  {
    var g := FragChain(s, cur, bs, c);
    ChainSteps(bs, c, End(s, cur), s.next, s.ren, Any(c));
    StepsCat(s.log, g.log, cur);
    NoSteps(g.log, cur);
  }

  // ── Matches and loops ────────────────────────────────────────────

  /** One arm, with its rename frame popped. */
  function ArmFrag(arms: Arms, c: Ctx, q: Point, merge: nat, n: nat, r: Ren): Frag
    requires arms.Arm?
  {
    var f := LowerArm(arms.pat, arms.guard, arms.body, c, n, r);
    Branch(q, merge, n, f).(ren := PopFrame(f.ren))
  }

  ghost predicate ArmsOf(arms: Arms, c: Ctx, q: Point, merge: nat, s: State, done: Frag, rest: Arms) {
    LowerArms(arms, c, q, merge, s.next, s.ren) == Cat(done, LowerArms(rest, c, q, merge, done.next, done.ren))
  }

  lemma ArmsNone(arms: Arms, c: Ctx, q: Point, merge: nat, s: State)
    ensures ArmsOf(arms, c, q, merge, s, Frag([], Point(merge, 0), s.next, s.ren), arms)
  {
    CatNone(Point(merge, 0), s.next, s.ren, LowerArms(arms, c, q, merge, s.next, s.ren));
  }

  lemma ArmsNext(arms: Arms, c: Ctx, q: Point, merge: nat, s: State, done: Frag, rest: Arms)
    requires rest.Arm? && ArmsOf(arms, c, q, merge, s, done, rest)
    ensures var one := ArmFrag(rest, c, q, merge, done.next, done.ren);
      && ArmsOf(arms, c, q, merge, s, Cat(done, one), rest.others)
      && Plus(Plus(s, done), one) == Plus(s, Cat(done, one)) && one.out == Point(merge, 0)
  {
    hide LowerArm;
    var one := ArmFrag(rest, c, q, merge, done.next, done.ren);
    var tail := LowerArms(rest.others, c, q, merge, one.next, one.ren);
    assert LowerArms(rest, c, q, merge, done.next, done.ren) == Cat(one, tail);
    CatAssoc(done, one, tail);
    CatPlus(s, done, one);
  }

  lemma ArmsEnd(arms: Arms, c: Ctx, q: Point, merge: nat, s: State, done: Frag, rest: Arms)
    requires rest.NoArm? && ArmsOf(arms, c, q, merge, s, done, rest) && done.out == Point(merge, 0)
    ensures LowerArms(arms, c, q, merge, s.next, s.ren) == done
  {
    assert done.log + [] == done.log;
  }

  lemma MatchPlus(s: State, cur: nat, e: Expr, c: Ctx)
    requires e.Match?
    ensures var f := FragE(s, cur, e.scrutinee, c); var s1 := Mint(Plus(s, f));
      && FragE(s, cur, e, c).out == Point(f.next, 0)
      && (e.arms.NoArm? ==> Write(s1, Jump(f.out, f.next, false)) == Plus(s, FragE(s, cur, e, c)))
      && (e.arms.Arm? ==>
          Plus(s1, LowerArms(e.arms, c, f.out, f.next, f.next + 1, f.ren)) == Plus(s, FragE(s, cur, e, c)))
  {
    hide LowerArms;
    var f := FragE(s, cur, e.scrutinee, c);
    ClosePlus(s, f, Jump(f.out, f.next, false), Jump(f.out, f.next, false));
    MergePlus(s, f, Jump(f.out, f.next, false), LowerArms(e.arms, c, f.out, f.next, f.next + 1, f.ren));
  }

  lemma ArmMoved(s0: State, entry: nat, pat: Pat, guard: Expr, body: Expr, c: Ctx, s2: State, s3: State, mid: nat,
          s4: State, out: nat)
    requires entry < s0.next == entry + 1 && End(s0, entry) == Point(entry, 0)
    requires var s1 := s0.(ren := PushFrame(s0.ren, InArm)); Moved(s1, entry, FragDefs(s1, entry, pat), c, s2, entry)
    requires Moved(s2, entry, FragE(s2, entry, guard, c), c, s3, mid) &&
        Moved(s3, mid, FragE(s3, mid, body, c), c, s4, out)
    ensures Moved(s0, entry, LowerArm(pat, guard, body, c, entry, s0.ren), c, s4, out)
    ensures |s4.ren.stack| == |s0.ren.stack| + 1
  {
    hide LowerE, Moved;
    var s1 := s0.(ren := PushFrame(s0.ren, InArm));
    var d := FragDefs(s1, entry, pat);
    var g := FragE(s2, entry, guard, c);
    var h := FragE(s3, mid, body, c);
    AfterMoved(s1, entry, d, c, s2, entry);
    AfterMoved(s2, entry, g, c, s3, mid);
    AfterMoved(s3, mid, h, c, s4, out);
    MovedCat(s2, entry, g, c, s3, mid, h, s4, out);
    MovedCat(s1, entry, d, c, s2, entry, Cat(g, h), s4, out);
    MovedRen(s0, s1, entry, Cat(d, Cat(g, h)), c, s4, out);
  }

  /** What is written does not depend on the renaming it started with, once the writes are given. */
  lemma MovedRen(s0: State, s1: State, cur: nat, f: Frag, c: Ctx, s2: State, out: nat)
    requires Moved(s1, cur, f, c, s2, out) && s0.log == s1.log && s0.next == s1.next
    ensures Moved(s0, cur, f, c, s2, out)
  {
  }

  lemma InLoopStillWf(c: Ctx, lbl: Label, merge: nat, header: nat, p: Point, n: nat)
    requires Wf(c, p, n) && merge < n && header < n && p.block != merge
    ensures Wf(InLoop(c, lbl, merge, header), p, n)
  {
    var c1 := InLoop(c, lbl, merge, header);
    forall i | 0 <= i < |c1.loops|
      ensures c1.loops[i].brk < n && c1.loops[i].cont < n && c1.loops[i].brk != p.block
    {
      if i < |c.loops| {
        assert c1.loops[..|c.loops|][i] == c1.loops[i];
      }
    }
  }

  lemma WhilePlus(s: State, cur: nat, e: Expr, c: Ctx)
    requires e.While?
    ensures var n := s.next; var p := End(s, cur);
      var f := LowerE(e.cond, c, Point(n, 0), n + 1, s.ren);
      var s1 := Plus(Write(Mint(s), Jump(p, n, false)), f);
      var s2 := Write(Mint(Write(Mint(s1), Jump(f.out, f.next, false))), Jump(f.out, f.next + 1, false));
      var g := LowerBlock(e.body, InLoop(c, e.lbl, f.next + 1, n), Point(f.next, 0), f.next + 2, f.ren);
      && Write(Write(Plus(s2, g), Jump(g.out, n, true)), LoopMark(Point(n, 0), g.next, f.next + 1)) ==
          Plus(s, FragE(s, cur, e, c))
      && FragE(s, cur, e, c).out == Point(f.next + 1, 0)
  {
    var n := s.next;
    var p := End(s, cur);
    var f := LowerE(e.cond, c, Point(n, 0), n + 1, s.ren);
    var h := Heading(p, n, f);
    var g := LowerBlock(e.body, InLoop(c, e.lbl, h.next - 1, n), h.out, h.next, h.ren);
    HeadingPlus(s, p, f);
    LoopPlus(s, n, h, g, g.ren);
    hide LowerBlock;
    assert FragE(s, cur, e, c) == LowerLoop(Some(e.cond), None, e.lbl, e.body, c, p, n, s.ren);
  }

  /** What `for` writes behind its iterable, from point `q` of block `q.block`. */
  function FragFor(s: State, q: Point, e: Expr, c: Ctx): Frag
    requires e.For?
  {
    LowerLoop(Some(Leaf), Some(e.pat), e.lbl, e.body, c, q, s.next, s.ren)
  }

  lemma ForPlus(s: State, q: Point, e: Expr, c: Ctx)
    requires e.For?
    ensures var n := s.next;
      var s1 := Write(Mint(s), Jump(q, n, false));
      var s2 := Write(Mint(Write(Mint(s1), Jump(Point(n, 0), n + 1, false))), Jump(Point(n, 0), n + 2, false));
      var r := PushFrame(s.ren, InFor);
      var d := LowerDefs(e.pat.names, e.pat.span, Point(n + 1, 0), n + 3, r);
      var g := LowerBlock(e.body, InLoop(c, e.lbl, n + 2, n), d.out, n + 3, d.ren);
      && Write(Write(Plus(Plus(s2.(ren := r), d), g), Jump(g.out, n, true)),
          LoopMark(Point(n, 0), g.next, n + 2)).(ren := PopFrame(g.ren))
         == Plus(s, FragFor(s, q, e, c))
      && FragFor(s, q, e, c).out == Point(n + 2, 0) && |g.ren.stack| > 0
  {
    var n := s.next;
    var none := LowerE(Leaf, c, Point(n, 0), n + 1, s.ren);
    assert none == Frag([], Point(n, 0), n + 1, s.ren);
    var k := Heading(q, n, none);
    var r := PushFrame(s.ren, InFor);
    var d := LowerDefs(e.pat.names, e.pat.span, Point(n + 1, 0), n + 3, r);
    var h := Cat(k, d);
    var g := LowerBlock(e.body, InLoop(c, e.lbl, n + 2, n), d.out, n + 3, d.ren);
    HeadingPlus(s, q, none);
    ForHead(s, k, r, d, q, none);
    LoopPlus(s, n, h, g, PopFrame(g.ren));
    hide LowerBlock, LowerDefs;
    assert LowerHead(Some(Leaf), Some(e.pat), c, q, n, s.ren) == h;
    assert FragFor(s, q, e, c) == LoopBack(n, h, g, PopFrame(g.ren));
  }

  lemma ForE(s: State, cur: nat, e: Expr, c: Ctx)
    requires e.For?
    ensures var f := FragE(s, cur, e.iterable, c); var l := FragFor(Plus(s, f), f.out, e, c);
      Plus(Plus(s, f), l) == Plus(s, FragE(s, cur, e, c)) && FragE(s, cur, e, c).out == l.out
  {
    hide LowerLoop;
    var f := FragE(s, cur, e.iterable, c);
    CatPlus(s, f, FragFor(Plus(s, f), f.out, e, c));
  }

  lemma ForHead(s: State, k: Frag, r: Ren, d: Frag, q: Point, none: Frag)
    requires none == Frag([], Point(s.next, 0), s.next + 1, s.ren) && k == Heading(q, s.next, none)
    ensures var n := s.next;
      Plus(Write(Mint(Write(Mint(Write(Mint(s), Jump(q, n, false))), Jump(Point(n, 0), n + 1, false))),
          Jump(Point(n, 0), n + 2, false)).(ren := r), d)
      == Plus(s, Cat(k, d))
  {
    HeadingPlus(s, q, none);
    var s1 := Write(Mint(s), Jump(q, s.next, false));
    assert Plus(s1, none) == s1 by { assert s1.log + [] == s1.log; }
    assert (s.log + k.log) + d.log == s.log + (k.log + d.log);
  }

  lemma LoopForeverPlus(s: State, cur: nat, e: Expr, c: Ctx)
    requires e.Loop?
    ensures var n := s.next; var p := End(s, cur);
      var s1 := Mint(Write(Mint(s), Jump(p, n, false)));
      var g := LowerBlock(e.body, InLoop(c, e.lbl, n + 1, n), Point(n, 0), n + 2, s.ren);
      && Write(Write(Plus(s1, g), Jump(g.out, n, true)), LoopMark(Point(n, 0), g.next, n + 1)) ==
          Plus(s, FragE(s, cur, e, c))
      && FragE(s, cur, e, c).out == Point(n + 1, 0)
  {
    var n := s.next;
    var p := End(s, cur);
    var h := Frag([Jump(p, n, false)], Point(n, 0), n + 2, s.ren);
    var g := LowerBlock(e.body, InLoop(c, e.lbl, n + 1, n), Point(n, 0), n + 2, s.ren);
    LoopPlus(s, n, h, g, g.ren);
    hide LowerBlock;
    assert FragE(s, cur, e, c) == LowerLoop(None, None, e.lbl, e.body, c, p, n, s.ren);
  }

  // ── Writes, one by one ───────────────────────────────────────────

  lemma Snoc(log: seq<Event>, ev: Event, b: nat)
    ensures BlockUses(log + [ev], b) == BlockUses(log, b) + (if ev.src.block == b then UsesOf(ev) else [])
    ensures Succs(log + [ev], b) == AddSucc(Succs(log, b), ev, b)
    ensures Steps(log + [ev], b) == Steps(log, b) + (if ev.Step? && ev.src.block == b then 1 else 0)
  {
    assert (log + [ev])[..|log|] == log;
  }

  /** A block without events is empty. */
  lemma {:induction false} NoEvents(log: seq<Event>, b: nat)
    requires forall ev :: ev in log ==> ev.src.block != b
    ensures BlockUses(log, b) == [] && Succs(log, b) == [] && Steps(log, b) == 0
  {
    if log != [] {
      assert log[|log| - 1] in log;
      NoEvents(log[..|log| - 1], b);
    }
  }

  lemma BlocksGrow(log: seq<Event>, n: nat)
    requires forall ev :: ev in log ==> ev.src.block < n
    ensures Blocks(log, n + 1) == Blocks(log, n) + [BasicBlock([], [])]
  {
    NoEvents(log, n);
  }

  lemma BlocksSnoc(log: seq<Event>, ev: Event, n: nat)
    requires ev.src.block < n
    ensures var b := ev.src.block; var bs := Blocks(log, n);
      Blocks(log + [ev], n) == bs[b := BasicBlock(bs[b].uses + UsesOf(ev), AddSucc(bs[b].successors, ev, b))]
  {
    hide BlockUses, Succs;
    var bs := Blocks(log, n);
    var k := ev.src.block;
    var updated := bs[k := BasicBlock(bs[k].uses + UsesOf(ev), AddSucc(bs[k].successors, ev, k))];
    forall b: nat | b < n
      ensures Blocks(log + [ev], n)[b] == updated[b]
    {
      Snoc(log, ev, b);
      assert BlockUses(log, b) + [] == BlockUses(log, b);
    }
    assert Blocks(log + [ev], n) == updated;
  }
}
