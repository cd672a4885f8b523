/** Where a graph does not mean its body: behind the branch of a let-else the same
    block goes on recording uses, and every walk through the block passes them. */
module CfgLoss {
  import opened Options
  import opened CfgSyntax
  import opened CfgLowering
  import opened CfgGood
  import opened CfgInvariant
  import opened CfgGraph
  import opened CfgDominance
  import opened CfgPaths
  import opened CfgSound
  import opened CfgPlain
  import opened CfgMeaning

  // ── Counting uses ────────────────────────────────────────────────

  function Count(tr: seq<UseSite>, x: UseSite): nat {
    if tr == [] then 0 else (if tr[0] == x then 1 else 0) + Count(tr[1..], x)
  }

  lemma {:induction false} CountCat(a: seq<UseSite>, b: seq<UseSite>, x: UseSite)
    ensures Count(a + b, x) == Count(a, x) + Count(b, x)
    decreases |a|
  {
    if a == [] {
      assert a + b == b;
    } else {
      assert (a + b)[1..] == a[1..] + b;
      CountCat(a[1..], b, x);
    }
  }

  /** The use `u` is recorded at this position and nowhere else. */
  ghost predicate OnlyAt(log: seq<Event>, q: Point, u: UseSite) {
    && Step(q, Some(u)) in log
    && forall ev :: ev in log && ev.Step? && ev.use.Some? && Erase(ev.use.value) == Erase(u) ==> ev.src == q
  }

  /** Between two positions of a block, behind the first and not behind the second. */
  function Between(q: Point, b: nat, i: nat, l: nat): nat {
    if q.block == b && i < q.off <= l then 1 else 0
  }

  /** On any path the first use comes at least as often as the second, up to where
      the path starts and ends: it cannot pass the second without the first. */
  lemma {:induction false} Balance(log: seq<Event>, b: nat, i: nat, l: nat, v: UseSite, u: UseSite, a: Point,
          es: seq<Event>, z: Point)
    requires OnlyAt(log, Point(b, i), v) && OnlyAt(log, Point(b, l), u) && i < l && PathTo(log, a, es, z)
    requires forall ev :: ev in log && ev.Step? && ev.src == Point(b, i) ==> ev.use == Some(v)
    requires forall ev :: ev in log && ev.Step? && ev.src == Point(b, l) ==> ev.use == Some(u)
    ensures Count(Labels1(es), Erase(v)) + Between(a, b, i, l) >= Count(Labels1(es), Erase(u)) + Between(z, b, i, l)
    decreases |es|
  {
    if es != [] {
      var q := Target1(es[0]);
      Balance(log, b, i, l, v, u, q, es[1..], z);
      var now := if es[0].Step? && es[0].use.Some? then [Erase(es[0].use.value)] else [];
      CountCat(now, Labels1(es[1..]), Erase(v));
      CountCat(now, Labels1(es[1..]), Erase(u));
      if now != [] {
        assert now[1..] == [];
      }
    }
  }

  /** A use at one step of some steps, or at none. */
  lemma {:induction false} MarksCount(us: seq<Option<UseSite>>, k: nat, x: UseSite)
    requires forall j :: 0 <= j < |us| && us[j].Some? && Erase(us[j].value) == x ==> j == k
    ensures Count(Marks(us), x) == if k < |us| && us[k].Some? && Erase(us[k].value) == x then 1 else 0
  {
    if us != [] {
      var now := if us[0].Some? then [Erase(us[0].value)] else [];
      CountCat(now, Marks(us[1..]), x);
      if now != [] {
        assert now[1..] == [];
      }
      MarksCount(us[1..], if k == 0 then |us| else k - 1, x);
    }
  }

  /** Each time a walk comes to a block it passes all the uses in it. */
  lemma {:induction false} WalkCount(log: seq<Event>, q: Point, u: UseSite, bs: seq<nat>)
    requires Laid(log) && OnlyAt(log, q, u)
    ensures Count(WalkUses(log, bs), Erase(u)) == Visits(bs, q.block)
  {
    if bs != [] {
      WalkCount(log, q, u, bs[1..]);
      UsesAreMarks(log, bs[0]);
      CountCat(EraseAll(BlockUses(log, bs[0])), WalkUses(log, bs[1..]), Erase(u));
      BlockCount(log, q, u, bs[0]);
    }
  }

  function Visits(bs: seq<nat>, b: nat): nat {
    if bs == [] then 0 else (if bs[0] == b then 1 else 0) + Visits(bs[1..], b)
  }

  lemma BlockCount(log: seq<Event>, q: Point, u: UseSite, b: nat)
    requires Laid(log) && OnlyAt(log, q, u)
    ensures Count(Marks(BlockSteps(log, b)), Erase(u)) == if b == q.block then 1 else 0
  {
    var us := BlockSteps(log, b);
    var k := if b == q.block then q.off else |us|;
    forall j | 0 <= j < |us| && us[j].Some? && Erase(us[j].value) == Erase(u)
      ensures b == q.block && j == k
    {
      assert Step(Point(b, j), us[j]) in log;
    }
    MarksCount(us, k, Erase(u));
  }

  // ── Lost meaning ─────────────────────────────────────────────────

  /** The converse of `MeaningPreserved`, as far as it holds: if a block records `v`,
      then has an edge to `d`, and then records `u`, each of them nowhere else, then
      a run that leaves by the edge has more of `v` than of `u`, and no walk has. So
      if the edge can be reached and leads to the exit, the meaning is lost. */
  lemma BranchLosesMeaning(body: Block, cl: Classification, params: seq<string>, b: nat, i: nat, k: nat, l: nat,
          d: nat, back: bool,
                           v: UseSite, u: UseSite, tr1: seq<UseSite>, tr2: seq<UseSite>)
    requires PlainB(body, true, cl) && i < k <= l && Jump(Point(b, k), d, back) in LowerBody(body, cl, params).log
    requires OnlyAt(LowerBody(body, cl, params).log, Point(b, i), v) &&
        OnlyAt(LowerBody(body, cl, params).log, Point(b, l), u)
    requires Reach(LowerBody(body, cl, params).log, Point(0, 0), tr1, Point(b, k))
    requires Reach(LowerBody(body, cl, params).log, Point(d, 0), tr2, Point(1, 0))
    ensures SomeRun(cl, body, tr1 + tr2) && !SomeWalk(LowerBody(body, cl, params).log, tr1 + tr2)
  {
    hide PlainB, Laid, LowerBody, OnlyAt, SomeRun, WalkTo, WalkUses, Placed;
    var log := LowerBody(body, cl, params).log;
    BodyLaid(body, cl, params);
    OneUse(log, Point(b, i), v);
    OneUse(log, Point(b, l), u);
    ThroughEdge(log, Point(b, k), d, back, tr1, tr2, Point(0, 0), Point(1, 0));
    RunsArePaths(body, cl, params, tr1 + tr2);
    var es1 :| PathTo(log, Point(0, 0), es1, Point(b, k)) && Labels1(es1) == tr1;
    var es2 :| PathTo(log, Point(d, 0), es2, Point(1, 0)) && Labels1(es2) == tr2;
    Balance(log, b, i, l, v, u, Point(0, 0), es1, Point(b, k));
    Balance(log, b, i, l, v, u, Point(d, 0), es2, Point(1, 0));
    CountCat(tr1, tr2, Erase(v));
    CountCat(tr1, tr2, Erase(u));
    forall bs | WalkTo(log, bs, 0, 1)
      ensures WalkUses(log, bs) != tr1 + tr2
    {
      WalkCount(log, Point(b, i), v, bs);
      WalkCount(log, Point(b, l), u, bs);
    }
  }

  /** A position has one step. */
  lemma OneUse(log: seq<Event>, q: Point, u: UseSite)
    requires Laid(log) && OnlyAt(log, q, u)
    ensures forall ev :: ev in log && ev.Step? && ev.src == q ==> ev.use == Some(u)
  {
  }

  lemma {:induction false} PathsJoin(log: seq<Event>, a: Point, es: seq<Event>, m: Point, fs: seq<Event>, z: Point)
    requires PathTo(log, a, es, m) && PathTo(log, m, fs, z)
    ensures PathTo(log, a, es + fs, z) && Labels1(es + fs) == Labels1(es) + Labels1(fs)
    decreases |es|
  {
    if es == [] {
      assert es + fs == fs;
    } else {
      assert (es + fs)[1..] == es[1..] + fs;
      PathsJoin(log, Target1(es[0]), es[1..], m, fs, z);
      Assoc(if es[0].Step? && es[0].use.Some? then [Erase(es[0].use.value)] else [], Labels1(es[1..]), Labels1(fs));
    }
  }

  lemma ThroughEdge(log: seq<Event>, q: Point, d: nat, back: bool, tr1: seq<UseSite>, tr2: seq<UseSite>, a: Point,
          z: Point)
    requires Jump(q, d, back) in log && Reach(log, a, tr1, q) && Reach(log, Point(d, 0), tr2, z)
    ensures Reach(log, a, tr1 + tr2, z)
  {
    JumpReach(log, q, d, back, tr2, z);
    var es1 :| PathTo(log, a, es1, q) && Labels1(es1) == tr1;
    var es2 :| PathTo(log, q, es2, z) && Labels1(es2) == tr2;
    PathsJoin(log, a, es1, q, es2, z);
  }

  /** The same for the entry block, which every walk passes: no use is needed in
      front of the edge. */
  lemma EntryLosesMeaning(body: Block, cl: Classification, params: seq<string>, k: nat, l: nat, d: nat, back: bool,
                          u: UseSite, tr2: seq<UseSite>)
    requires PlainB(body, true, cl) && k <= l && Jump(Point(0, k), d, back) in LowerBody(body, cl, params).log
    requires OnlyAt(LowerBody(body, cl, params).log, Point(0, l), u)
    requires Reach(LowerBody(body, cl, params).log, Point(d, 0), tr2, Point(1, 0))
    ensures var log := LowerBody(body, cl, params).log;
      k <= Steps(log, 0) && SomeRun(cl, body, Marks(BlockSteps(log, 0)[0..k]) + tr2) &&
          !SomeWalk(log, Marks(BlockSteps(log, 0)[0..k]) + tr2)
  {
    hide PlainB, LowerBody, SomeRun, WalkUses, Placed;
    var log := LowerBody(body, cl, params).log;
    BodyLaid(body, cl, params);
    var us := BlockSteps(log, 0);
    var tr1 := Marks(us[0..k]);
    Here(log, Point(0, k));
    StepsTo(log, 0, 0, k, [], Point(0, k));
    assert tr1 + [] == tr1;
    ThroughEdge(log, Point(0, k), d, back, tr1, tr2, Point(0, 0), Point(1, 0));
    RunsArePaths(body, cl, params, tr1 + tr2);
    forall j | 0 <= j < k && us[j].Some?
      ensures Erase(us[j].value) != Erase(u)
    {
      assert Step(Point(0, j), us[j]) in log;
    }
    MarksCount(us[0..k], k, Erase(u));
    NeverEntry(body, cl, params);
    var es2 :| PathTo(log, Point(d, 0), es2, Point(1, 0)) && Labels1(es2) == tr2;
    NoVisit(log, Point(0, l), u, Point(d, 0), es2, Point(1, 0));
    CountCat(tr1, tr2, Erase(u));
    forall bs | WalkTo(log, bs, 0, 1)
      ensures WalkUses(log, bs) != tr1 + tr2
    {
      WalkCount(log, Point(0, l), u, bs);
    }
  }

  lemma NeverEntry(body: Block, cl: Classification, params: seq<string>)
    ensures forall ev :: ev in LowerBody(body, cl, params).log && ev.Jump? ==> ev.dst != 0
  {
    hide LowerBody;
    GoodLowering(body, cl, params, Mode(1, true, true, false));
  }

  lemma {:induction false} NoVisit(log: seq<Event>, q: Point, u: UseSite, a: Point, es: seq<Event>, z: Point)
    requires OnlyAt(log, q, u) && a.block != q.block && PathTo(log, a, es, z)
    requires forall ev :: ev in log && ev.Jump? ==> ev.dst != q.block
    ensures Count(Labels1(es), Erase(u)) == 0
    decreases |es|
  {
    if es != [] {
      NoVisit(log, q, u, Target1(es[0]), es[1..], z);
      var now := if es[0].Step? && es[0].use.Some? then [Erase(es[0].use.value)] else [];
      CountCat(now, Labels1(es[1..]), Erase(u));
      if now != [] {
        assert now[1..] == [];
      }
    }
  }

  // ── A body whose meaning is lost ─────────────────────────────────

  /** `let p = v else { return }; b`. */
  function LetElseReturn(v: Expr): Block {
    Then(LetElse(Pat([], 0), v, Done(Return(Leaf))), Done(Use("b", 2)))
  }

  /** With the value `a` a run diverges and uses only `a`; every walk uses `b`, too. */
  lemma LetElseLosesMeaning(cl: Classification)
    ensures SomeRun(cl, LetElseReturn(Use("a", 1)), [LeafUse(cl, "a", 1)])
    ensures !SomeWalk(LowerBody(LetElseReturn(Use("a", 1)), cl, []).log, [LeafUse(cl, "a", 1)])
  {
    var a := LeafUse(cl, "a", 1);
    var b := LeafUse(cl, "b", 2);
    var body := LetElseReturn(Use("a", 1));
    var log := LowerBody(body, cl, []).log;
    UseLowered(cl, "a", 1);
    LetElseLog(cl, Use("a", 1), [Step(Point(0, 0), Some(a))], 1);
    hide LowerBody, PlainB, SomeRun, SomeWalk, OnlyAt, Reach, LetElseReturn;
    assert Erase(a) == a && Erase(b) == b && a.binding.name != b.binding.name by { NameOrder(); }
    LogFacts(log, a, b);
    LetElsePlain(cl, Use("a", 1));
    BranchLosesMeaning(body, cl, [], 0, 0, 1, 2, 2, false, a, b, [a], []);
    assert [a] + [] == [a];
  }

  /** With a literal a run diverges and uses nothing; every walk uses `b`. */
  lemma LiteralLosesMeaning(cl: Classification)
    ensures SomeRun(cl, LetElseReturn(Leaf), [])
    ensures !SomeWalk(LowerBody(LetElseReturn(Leaf), cl, []).log, [])
  {
    var b := LeafUse(cl, "b", 2);
    var body := LetElseReturn(Leaf);
    var log := LowerBody(body, cl, []).log;
    LiteralLog(cl, log);
    hide LowerBody, PlainB, SomeRun, SomeWalk, LetElseReturn, LowerE, OnlyAt, Reach, Marks;
    LiteralFacts(log, b);
    LetElsePlain(cl, Leaf);
    EntryLosesMeaning(body, cl, [], 0, 1, 2, false, b, []);
    NoMarksBefore(log);
  }

  lemma NoMarksBefore(log: seq<Event>)
    ensures Marks(BlockSteps(log, 0)[0..0]) + [] == []
  {
  }

  lemma LiteralLog(cl: Classification, log: seq<Event>)
    requires log == LowerBody(LetElseReturn(Leaf), cl, []).log
    ensures log == [Jump(Point(0, 0), 2, false), Jump(Point(2, 0), 1, false), Step(Point(0, 0), None),
                    Step(Point(0, 1), Some(LeafUse(cl, "b", 2))), Jump(Point(0, 2), 1, false)]
  {
    LetElseLog(cl, Leaf, [], 0);
  }

  lemma LiteralFacts(log: seq<Event>, b: UseSite)
    requires log == [Jump(Point(0, 0), 2, false), Jump(Point(2, 0), 1, false), Step(Point(0, 0), None),
                     Step(Point(0, 1), Some(b)), Jump(Point(0, 2), 1, false)]
    ensures OnlyAt(log, Point(0, 1), b) && Jump(Point(0, 0), 2, false) in log &&
        Reach(log, Point(2, 0), [], Point(1, 0))
  {
    hide Reach;
    Here(log, Point(1, 0));
    JumpReach(log, Point(2, 0), 1, false, [], Point(1, 0));
  }

  lemma UseLowered(cl: Classification, x: string, span: nat)
    ensures LowerE(Use(x, span), InScope(Top(cl), []), Point(0, 0), 2, Start([]))
      == Frag([Step(Point(0, 0), Some(LeafUse(cl, x, span)))], Point(0, 1), 2, Start([]))
  {
  }

  lemma NameOrder()
    ensures "a" != "b"
  {
    assert "a"[0] != "b"[0];
  }

  lemma LogFacts(log: seq<Event>, a: UseSite, b: UseSite)
    requires log == [Step(Point(0, 0), Some(a)), Jump(Point(0, 1), 2, false), Jump(Point(2, 0), 1, false),
        Step(Point(0, 1), None),
                     Step(Point(0, 2), Some(b)), Jump(Point(0, 3), 1, false)]
    requires Erase(a) == a && Erase(b) == b && a.binding.name != b.binding.name
    ensures OnlyAt(log, Point(0, 0), a) && OnlyAt(log, Point(0, 2), b)
    ensures Reach(log, Point(0, 0), [a], Point(0, 1)) && Reach(log, Point(2, 0), [], Point(1, 0))
    ensures Jump(Point(0, 1), 2, false) in log
  {
    hide Reach;
    Here(log, Point(0, 1));
    StepReach(log, Point(0, 0), a, [], Point(0, 1));
    assert [a] + [] == [a];
    Here(log, Point(1, 0));
    JumpReach(log, Point(2, 0), 1, false, [], Point(1, 0));
  }

  lemma LetElsePlain(cl: Classification, v: Expr)
    requires PlainE(v, true, cl)
    ensures PlainB(LetElseReturn(v), true, cl)
  {
    assert PlainE(Return(Leaf), true, cl);
    assert PlainB(Done(Return(Leaf)), true, cl);
    assert PlainB(Done(Use("b", 2)), true, cl);
  }

  /** A block that only returns, in two scopes without cleanup. */
  lemma ReturnLog(cl: Classification, p: Point, n: nat, r: Ren)
    requires r.stack == []
    ensures LowerBlock(Done(Return(Leaf)), InScope(Top(cl), []), p, n, r) ==
        Frag([Jump(p, 1, false)], Point(n, 0), n + 1, r)
  {
    var c1 := InScope(Top(cl), []);
    var c2 := InScope(c1, []);
    assert c2.frames[..1] == c1.frames && c1.frames[..0] == [];
    assert FrameBodies([], true) == [] && FrameBodies([], false) == [];
    assert Bodies(c2.frames, 0, true) == FrameBodies([], true) + Bodies(c1.frames, 0, true);
    assert Bodies(c1.frames, 0, true) == FrameBodies([], true) + Bodies([], 0, true);
    assert TargetOf(c2, Ret) == Some(Target([], 1, false));
    var none := Frag([], p, n, r);
    assert LowerE(Leaf, c2, p, n, r) == none;
    assert Unwind(Ret, c2, p, n, r) == none && Cat(none, none) == none;
    var ret := LowerE(Return(Leaf), c2, p, n, r);
    assert ret == LowerExit(none, Ret, c2) == Close(none, [Jump(p, 1, false)]);
    assert LowerRest(Done(Return(Leaf)), [], c1, p, n, r) == Cat(ret, LowerChain([], c1, ret.out, ret.next, ret.ren));
  }

  /** The log, given that of the value. */
  lemma LetElseLog(cl: Classification, v: Expr, log: seq<Event>, off: nat)
    requires LowerE(v, InScope(Top(cl), []), Point(0, 0), 2, Start([])) == Frag(log, Point(0, off), 2, Start([]))
    ensures LowerBody(LetElseReturn(v), cl, []).log == log
      + [Jump(Point(0, off), 2, false), Jump(Point(2, 0), 1, false), Step(Point(0, off), None),
         Step(Point(0, off + 1), Some(LeafUse(cl, "b", 2))), Jump(Point(0, off + 2), 1, false)]
  {
    var c := Top(cl);
    var c1 := InScope(c, []);
    var r := Start([]);
    var f := Frag(log, Point(0, off), 2, r);
    ReturnLog(cl, Point(2, 0), 3, r);
    var g := LowerBlock(Done(Return(Leaf)), c1, Point(2, 0), 3, r);
    var k := Aside(f, g);
    RestLog(c, k.out, g.next, r);
    hide LowerE, LowerBlock, LowerRest, Bodies, TargetOf;
    assert NoteAll([], r) == r && !AnySeen([], r);
    var rest := LowerRest(Done(Use("b", 2)), [], c, k.out, g.next, r);
    LetElseBody(LetElseReturn(v), cl, f, g, rest);
  }

  lemma RestLog(c: Ctx, p: Point, n: nat, r: Ren)
    requires r.stack == []
    ensures LowerRest(Done(Use("b", 2)), [], c, p, n, r)
      == Frag([Step(p, Some(LeafUse(c.cl, "b", 2)))], Point(p.block, p.off + 1), n, r)
  {
    var u := LowerE(Use("b", 2), InScope(c, []), p, n, r);
    assert u == Frag([Step(p, Some(LeafUse(c.cl, "b", 2)))], Point(p.block, p.off + 1), n, r);
    hide LowerE;
    assert FrameBodies([], false) == [];
    assert LowerRest(Done(Use("b", 2)), [], c, p, n, r) == Cat(u, LowerChain([], c, u.out, u.next, u.ren));
  }

  lemma LetElseBody(body: Block, cl: Classification, f: Frag, g: Frag, rest: Frag)
    requires body.Then? && body.first.LetElse? && body.first.pat.names == []
    requires f == LowerE(body.first.value, InScope(Top(cl), []), Point(0, 0), 2, Start([]))
    requires g == LowerBlock(body.first.diverge, InScope(Top(cl), []), Point(f.next, 0), f.next + 1, f.ren)
    requires rest == LowerRest(body.rest, [], Top(cl), Aside(f, g).out, g.next, g.ren)
    ensures LowerBody(body, cl, []).log == Aside(f, g).log + rest.log + [Jump(rest.out, 1, false)]
  {
    hide LowerE, LowerRest;
    assert NoteAll([], f.ren) == f.ren && !AnySeen([], f.ren);
    RestStep(body.first, body.rest, [], Top(cl), Point(0, 0), 2, Start([]));
  }
}
