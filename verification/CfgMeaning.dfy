/** The graph means the same as the source: the uses along the walks from the
    entry to the exit are exactly the uses of the finishing runs. */
module CfgMeaning {
  import opened Options
  import opened CfgSyntax
  import opened CfgLowering
  import opened CfgGood
  import opened CfgInvariant
  import opened CfgGraph
  import opened CfgDominance
  import opened CfgRuns
  import opened CfgPaths
  import opened CfgSound
  import opened CfgExact
  import opened CfgPlain
  import opened CfgComplete

  // ── Blocks and walks ─────────────────────────────────────────────

  function EraseAll(us: seq<UseSite>): seq<UseSite> {
    if us == [] then [] else [Erase(us[0])] + EraseAll(us[1..])
  }

  /** The uses along a walk, block after block, names erased. */
  function WalkUses(log: seq<Event>, bs: seq<nat>): seq<UseSite> {
    if bs == [] then [] else EraseAll(BlockUses(log, bs[0])) + WalkUses(log, bs[1..])
  }

  /** The steps of block `b` in order, with or without a use. */
  function BlockSteps(log: seq<Event>, b: nat): (us: seq<Option<UseSite>>)
    ensures |us| == Steps(log, b)
  {
    if log == [] then []
    else
      var ev := log[|log| - 1];
      BlockSteps(log[..|log| - 1], b) + (if ev.Step? && ev.src.block == b then [ev.use] else [])
  }

  /** The uses of some steps, names erased. */
  function Marks(us: seq<Option<UseSite>>): seq<UseSite> {
    if us == [] then [] else (if us[0].Some? then [Erase(us[0].value)] else []) + Marks(us[1..])
  }

  lemma {:induction false} MarksCat(a: seq<Option<UseSite>>, b: seq<Option<UseSite>>)
    ensures Marks(a + b) == Marks(a) + Marks(b)
    decreases |a|
  {
    if a == [] {
      assert a + b == b;
    } else {
      assert (a + b)[1..] == a[1..] + b;
      MarksCat(a[1..], b);
    }
  }

  lemma {:induction false} EraseCat(a: seq<UseSite>, b: seq<UseSite>)
    ensures EraseAll(a + b) == EraseAll(a) + EraseAll(b)
    decreases |a|
  {
    if a == [] {
      assert a + b == b;
    } else {
      assert (a + b)[1..] == a[1..] + b;
      EraseCat(a[1..], b);
    }
  }

  /** The uses of a block are those of its steps. */
  lemma {:induction false} UsesAreMarks(log: seq<Event>, b: nat)
    ensures EraseAll(BlockUses(log, b)) == Marks(BlockSteps(log, b))
  {
    if log != [] {
      var ev := log[|log| - 1];
      var front := log[..|log| - 1];
      UsesAreMarks(front, b);
      EraseCat(BlockUses(front, b), if ev.src.block == b then UsesOf(ev) else []);
      MarksCat(BlockSteps(front, b), if ev.Step? && ev.src.block == b then [ev.use] else []);
      if ev.Step? && ev.use.Some? {
        assert [ev.use][1..] == [] && [ev.use.value][1..] == [];
      }
    }
  }

  /** Steps are where their positions say, and edges leave at some step of their block or at its end. */
  ghost predicate Laid(log: seq<Event>) {
    && (forall ev :: ev in log && ev.Step? ==>
        ev.src.off < Steps(log, ev.src.block) && BlockSteps(log, ev.src.block)[ev.src.off] == ev.use)
    && (forall b: nat, k: nat :: k < Steps(log, b) ==> Step(Point(b, k), BlockSteps(log, b)[k]) in log)
    && (forall ev :: ev in log && ev.Jump? ==> ev.src.off <= Steps(log, ev.src.block))
  }

  /** In block `b` the steps are where their positions say. */
  ghost predicate LaidAt(log: seq<Event>, b: nat) {
    && (forall ev :: ev in log && ev.Step? && ev.src.block == b ==>
        ev.src.off < Steps(log, b) && BlockSteps(log, b)[ev.src.off] == ev.use)
    && (forall k: nat :: k < Steps(log, b) ==> Step(Point(b, k), BlockSteps(log, b)[k]) in log)
    && (forall ev :: ev in log && ev.Jump? && ev.src.block == b ==> ev.src.off <= Steps(log, b))
  }

  lemma StepsSnoc(log: seq<Event>, ev: Event, b: nat)
    ensures BlockSteps(log + [ev], b) == BlockSteps(log, b) + (if ev.Step? && ev.src.block == b then [ev.use] else [])
    ensures Steps(log + [ev], b) == Steps(log, b) + (if ev.Step? && ev.src.block == b then 1 else 0)
  {
    assert (log + [ev])[..|log|] == log;
  }

  lemma LaidSnoc(log: seq<Event>, ev: Event, b: nat)
    requires LaidAt(log, b) && ((ev.Step? || ev.Jump?) && ev.src.block == b ==> ev.src.off == Steps(log, b))
    ensures LaidAt(log + [ev], b)
  {
    StepsSnoc(log, ev, b);
    hide Steps, BlockSteps;
    if ev.Step? && ev.src.block == b {
      assert ev == Step(Point(b, Steps(log, b)), ev.use);
    }
  }

  lemma {:induction false} StepsAt(log: seq<Event>, i: nat, b: nat)
    requires Placed(log, Point(0, 0)) && i <= |log|
    ensures LaidAt(log[..i], b)
    decreases i
  {
    hide LaidAt;
    if i == 0 {
      NoneLaid(b);
    } else {
      StepsAt(log, i - 1, b);
      assert log[..i] == log[..i - 1] + [log[i - 1]];
      if !IsMark(log[i - 1]) {
        assert AtEnd(log[..i - 1], log[i - 1].src, Point(0, 0));
      }
      LaidSnoc(log[..i - 1], log[i - 1], b);
    }
  }

  lemma NoneLaid(b: nat)
    ensures LaidAt([], b)
  {
  }

  lemma LaidOut(log: seq<Event>)
    requires Placed(log, Point(0, 0))
    ensures Laid(log)
  {
    assert log[..|log|] == log;
    forall b: nat
      ensures LaidAt(log, b)
    {
      StepsAt(log, |log|, b);
    }
    forall ev | ev in log && ev.Step?
      ensures ev.src.off < Steps(log, ev.src.block) && BlockSteps(log, ev.src.block)[ev.src.off] == ev.use
    {
      assert LaidAt(log, ev.src.block);
    }
    forall b: nat, k: nat | k < Steps(log, b)
      ensures Step(Point(b, k), BlockSteps(log, b)[k]) in log
    {
      assert LaidAt(log, b);
    }
    forall ev | ev in log && ev.Jump?
      ensures ev.src.off <= Steps(log, ev.src.block)
    {
      assert LaidAt(log, ev.src.block);
    }
  }

  // ── Sealed graphs ────────────────────────────────────────────────

  /** No use is recorded in a block behind an edge out of it. */
  ghost predicate Sealed(log: seq<Event>) {
    NoConf(log, true)
  }

  /** Behind each edge its block has no more uses. */
  ghost predicate EdgesLast(log: seq<Event>) {
    forall ev :: ev in log && ev.Jump? ==>
        ev.src.off <= Steps(log, ev.src.block) && Marks(BlockSteps(log, ev.src.block)[ev.src.off..]) == []
  }

  lemma {:induction false} NoMarks(us: seq<Option<UseSite>>)
    requires forall k :: 0 <= k < |us| ==> us[k].None?
    ensures Marks(us) == []
  {
    if us != [] {
      NoMarks(us[1..]);
    }
  }

  lemma SealedLast(log: seq<Event>)
    requires Placed(log, Point(0, 0)) && Sealed(log)
    ensures EdgesLast(log)
  {
    hide AtEnd, Conf;
    LaidOut(log);
    forall ev | ev in log && ev.Jump?
      ensures ev.src.off <= Steps(log, ev.src.block) && Marks(BlockSteps(log, ev.src.block)[ev.src.off..]) == []
    {
      var i :| 0 <= i < |log| && log[i] == ev;
      var b := ev.src.block;
      var tail := BlockSteps(log, b)[ev.src.off..];
      forall k | 0 <= k < |tail|
        ensures tail[k].None?
      {
        var st := Step(Point(b, ev.src.off + k), tail[k]);
        assert st in log;
        var j :| 0 <= j < |log| && log[j] == st;
        BehindEdge(log, i, j);
      }
      NoMarks(tail);
    }
  }

  /** A step at or behind the position of an edge was logged after it, and has no use. */
  lemma BehindEdge(log: seq<Event>, i: nat, j: nat)
    requires Placed(log, Point(0, 0)) && Sealed(log) && i < |log| && j < |log|
    requires log[i].Jump? && log[j].Step? && log[j].src.block == log[i].src.block && log[j].src.off >= log[i].src.off
    ensures log[j].use.None?
  {
    var b := log[i].src.block;
    assert AtEnd(log[..i], log[i].src, Point(0, 0));
    assert AtEnd(log[..j], log[j].src, Point(0, 0));
    if j < i {
      var mid := log[..j + 1];
      assert mid == log[..j] + [log[j]] && log[..i] == mid + log[j + 1..i];
      StepsSnoc(log[..j], log[j], b);
      StepsCat(mid, log[j + 1..i], b);
    } else if i < j {
      assert !Conf(log[i], log[j], true);
    }
  }

  /** A path through positions passes the blocks of a walk and the uses in them. */
  lemma {:induction false} PathIsWalk(log: seq<Event>, b: nat, off: nat, es: seq<Event>) returns (bs: seq<nat>)
    requires Laid(log) && EdgesLast(log) && (forall ev :: ev in log ==> ev.src.block != 1) && off <= Steps(log, b)
    requires PathTo(log, Point(b, off), es, Point(1, 0))
    ensures WalkTo(log, bs, b, 1)
    ensures Labels1(es) == Marks(BlockSteps(log, b)[off..]) + WalkUses(log, bs[1..])
    decreases |es|
  {
    var us := BlockSteps(log, b);
    if es == [] {
      bs := [1];
      NoSteps(log, 1);
    } else if es[0].Step? {
      bs := PathIsWalk(log, b, off + 1, es[1..]);
      assert us[off..][1..] == us[off + 1..];
      Assoc(if us[off].Some? then [Erase(us[off].value)] else [], Marks(us[off + 1..]), WalkUses(log, bs[1..]));
    } else {
      var tail := PathIsWalk(log, es[0].dst, 0, es[1..]);
      bs := [b] + tail;
      assert bs[1..] == tail;
      WalkCons(log, es[0], tail);
      var next := BlockSteps(log, es[0].dst);
      assert next[0..] == next;
      UsesAreMarks(log, es[0].dst);
      assert WalkUses(log, tail) == Marks(next) + WalkUses(log, tail[1..]);
      assert [] + Labels1(es[1..]) == Labels1(es[1..]);
      assert [] + WalkUses(log, tail) == WalkUses(log, tail);
    }
  }

  lemma WalkCons(log: seq<Event>, ev: Event, tail: seq<nat>)
    requires ev in log && ev.Jump? && WalkTo(log, tail, ev.dst, 1)
    ensures WalkTo(log, [ev.src.block] + tail, ev.src.block, 1)
  {
    var bs := [ev.src.block] + tail;
    forall i | 0 <= i < |bs| - 1
      ensures Edge(log, bs[i], bs[i + 1])
    {
      if i > 0 {
        assert Edge(log, tail[i - 1], tail[i - 1 + 1]);
      }
    }
  }

  /** Through the steps of a block up to some position. */
  lemma {:induction false} StepsTo(log: seq<Event>, b: nat, off: nat, k: nat, tr: seq<UseSite>, z: Point)
    requires Laid(log) && off <= k <= Steps(log, b) && Reach(log, Point(b, k), tr, z)
    ensures Reach(log, Point(b, off), Marks(BlockSteps(log, b)[off..k]) + tr, z)
    decreases k - off
  {
    var us := BlockSteps(log, b);
    var now := us[off..k];
    if off == k {
      assert now == [] && [] + tr == tr;
    } else {
      StepsTo(log, b, off + 1, k, tr, z);
      assert now[1..] == us[off + 1..k];
      assert Step(Point(b, off), us[off]) in log;
      var more := Marks(us[off + 1..k]) + tr;
      if us[off].Some? {
        StepReach(log, Point(b, off), us[off].value, more, z);
        Assoc([Erase(us[off].value)], Marks(us[off + 1..k]), tr);
      } else {
        PassReach(log, Point(b, off), more, z);
        assert [] + Marks(us[off + 1..k]) == Marks(us[off + 1..k]);
      }
    }
  }

  lemma BeforeEdge(us: seq<Option<UseSite>>, k: nat)
    requires k <= |us| && Marks(us[k..]) == []
    ensures Marks(us[0..k]) == Marks(us)
  {
    assert us == us[0..k] + us[k..];
    MarksCat(us[0..k], us[k..]);
    assert Marks(us[0..k]) + [] == Marks(us[0..k]);
  }

  lemma {:induction false} WalkIsPath(log: seq<Event>, b: nat, bs: seq<nat>)
    requires Laid(log) && EdgesLast(log) && (forall ev :: ev in log ==> ev.src.block != 1)
    requires WalkTo(log, bs, b, 1)
    ensures Reach(log, Point(b, 0), WalkUses(log, bs), Point(1, 0))
    decreases |bs|
  {
    hide BlockSteps, BlockUses, EraseAll, Marks, PathTo, Reach, Laid;
    UsesAreMarks(log, b);
    if |bs| == 1 {
      Here(log, Point(1, 0));
      ExitUses(log, bs);
    } else {
      var tail := bs[1..|bs|];
      assert bs[1..] == tail;
      assert Edge(log, bs[0], bs[0 + 1]);
      var ev :| ev in log && ev.Jump? && ev.src.block == b && ev.dst == bs[1];
      Part(log, bs, 1, |bs|);
      WalkIsPath(log, ev.dst, tail);
      var k := ev.src.off;
      assert ev == Jump(Point(b, k), ev.dst, ev.back);
      JumpReach(log, Point(b, k), ev.dst, ev.back, WalkUses(log, tail), Point(1, 0));
      StepsTo(log, b, 0, k, WalkUses(log, tail), Point(1, 0));
      BeforeEdge(BlockSteps(log, b), k);
    }
  }

  lemma ExitUses(log: seq<Event>, bs: seq<nat>)
    requires bs == [1] && forall ev :: ev in log ==> ev.src.block != 1
    ensures WalkUses(log, bs) == []
  {
    UsesAreMarks(log, 1);
    NoSteps(log, 1);
    assert BlockSteps(log, 1) == [] && bs[1..] == [];
  }

  lemma Here(log: seq<Event>, p: Point)
    ensures Reach(log, p, [], p)
  {
    var es: seq<Event> := [];
    assert PathTo(log, p, es, p) && Labels1(es) == [];
  }

  // ── The theorem ──────────────────────────────────────────────────

  /** Some finishing run of the body has exactly these uses. */
  ghost predicate SomeRun(cl: Classification, body: Block, tr: seq<UseSite>) {
    exists t :: Finishes(cl, body, t) && Trace(t) == tr
  }

  /** Some walk from the entry to the exit has exactly these uses. */
  ghost predicate SomeWalk(log: seq<Event>, tr: seq<UseSite>) {
    exists bs :: WalkTo(log, bs, 0, 1) && WalkUses(log, bs) == tr
  }

  function Top(cl: Classification): Ctx {
    Ctx(cl, 1, [], [], false)
  }

  function Start(params: seq<string>): Ren {
    Ren([], set i | 0 <= i < |params| :: params[i], 0)
  }

  lemma TopOk(cl: Classification)
    ensures Ok(Top(cl), Point(0, 0), 2)
  {
  }

  lemma RunReaches(cl: Classification, body: Block, params: seq<string>, t: Run)
    requires Finishes(cl, body, t)
    ensures Reach(LowerBody(body, cl, params).log, Point(0, 0), Trace(t), Point(1, 0))
  {
    var f := LowerBlock(body, Top(cl), Point(0, 0), 2, Start(params));
    var log := LowerBody(body, cl, params).log;
    assert log == f.log + [Jump(f.out, 1, false)];
    Here(log, Point(1, 0));
    assert Jump(f.out, 1, false) in log;
    JumpReach(log, f.out, 1, false, [], Point(1, 0));
    assert TargetOf(Top(cl), Ret) == Some(Target([], 1, false));
    assert Goes(log, Top(cl), f.out, Out(t), RNil, [], Point(1, 0));
    SoundBlock(body, Top(cl), Point(0, 0), 2, Start(params), log, t, RNil, [], Point(1, 0));
    assert After(Out(t), RNil, []) == [];
    assert Trace(t) + [] == Trace(t);
  }

  /** Where a whole body can go on, once it has ended. */
  lemma LastMove(body: Block, cl: Classification, params: seq<string>, f: Frag)
    requires PlainB(body, true, cl) && f == LowerBlock(body, Top(cl), Point(0, 0), 2, Start(params))
    ensures ExactF(LowerBody(body, cl, params).log, f, Point(0, 0), 2)
    ensures Only(LowerBody(body, cl, params).log, f.out, {Jump(f.out, 1, false)}) && f.out.block != 1
  {
    TopOk(cl);
    LeanBlock(body, true, Top(cl), Point(0, 0), 2, Start(params));
  }

  lemma ReachIsRun(cl: Classification, body: Block, params: seq<string>, es: seq<Event>) returns (t: Run)
    requires PlainB(body, true, cl) && PathTo(LowerBody(body, cl, params).log, Point(0, 0), es, Point(1, 0))
    requires forall ev :: ev in LowerBody(body, cl, params).log ==> ev.src.block != 1
    ensures Finishes(cl, body, t) && Trace(t) == Labels1(es)
  {
    hide PlainB, ExactF, Lean, PlainFrames;
    var f := LowerBlock(body, Top(cl), Point(0, 0), 2, Start(params));
    var log := LowerBody(body, cl, params).log;
    TopOk(cl);
    LastMove(body, cl, params, f);
    var x := CompleteBlock(body, true, Top(cl), Point(0, 0), 2, Start(params), log, es);
    t := x.t;
    if Out(t) == Normal {
      PeelJump(log, f.out, x.rest, Point(1, 0), {Jump(f.out, 1, false)});
      AtExit(log, x.rest[1..]);
    } else {
      AtExit(log, x.rest);
    }
    assert Trace(t) + [] == Trace(t);
  }

  lemma AtExit(log: seq<Event>, es: seq<Event>)
    requires PathTo(log, Point(1, 0), es, Point(1, 0)) && forall ev :: ev in log ==> ev.src.block != 1
    ensures es == []
  {
  }

  /** For a body without closure, sink argument, guard and short-circuit operator,
      whose cleanup bodies neither return nor use `?`: a sequence of uses, names
      erased, is that of a finishing run if and only if it is that of a path from
      the entry's start to the exit, which leaves a block at the position of an edge. */
  lemma RunsArePaths(body: Block, cl: Classification, params: seq<string>, tr: seq<UseSite>)
    requires PlainB(body, true, cl)
    ensures SomeRun(cl, body, tr) <==> Reach(LowerBody(body, cl, params).log, Point(0, 0), tr, Point(1, 0))
  {
    hide PlainB, PathTo, Finishes, LowerBody;
    var log := LowerBody(body, cl, params).log;
    ExitBare(body, cl, params);
    if SomeRun(cl, body, tr) {
      var t :| Finishes(cl, body, t) && Trace(t) == tr;
      RunReaches(cl, body, params, t);
    }
    if Reach(log, Point(0, 0), tr, Point(1, 0)) {
      var es :| PathTo(log, Point(0, 0), es, Point(1, 0)) && Labels1(es) == tr;
      var t := ReachIsRun(cl, body, params, es);
    }
  }

  /** Such a body means the same as its graph, as walks through whole blocks, if no
      use is recorded in a block behind an edge out of it. */
  lemma MeaningPreserved(body: Block, cl: Classification, params: seq<string>, tr: seq<UseSite>)
    requires PlainB(body, true, cl) && Sealed(LowerBody(body, cl, params).log)
    ensures SomeRun(cl, body, tr) <==> SomeWalk(LowerBody(body, cl, params).log, tr)
  {
    hide PlainB, Linked, Placed, Laid, EdgesLast, Sealed, PathTo, WalkTo, Finishes, LowerBody, SomeRun;
    var log := LowerBody(body, cl, params).log;
    BodyLaid(body, cl, params);
    SealedLast(log);
    RunsArePaths(body, cl, params, tr);
    if Reach(log, Point(0, 0), tr, Point(1, 0)) {
      var es :| PathTo(log, Point(0, 0), es, Point(1, 0)) && Labels1(es) == tr;
      var bs := PathIsWalk(log, 0, 0, es);
      FromStart(log, bs);
    }
    if SomeWalk(log, tr) {
      var bs :| WalkTo(log, bs, 0, 1) && WalkUses(log, bs) == tr;
      WalkIsPath(log, 0, bs);
    }
  }

  lemma ExitBare(body: Block, cl: Classification, params: seq<string>)
    ensures forall ev :: ev in LowerBody(body, cl, params).log ==> ev.src.block != 1
  {
    hide LowerBody;
    Reducible(body, cl, params);
  }

  lemma BodyLaid(body: Block, cl: Classification, params: seq<string>)
    ensures Laid(LowerBody(body, cl, params).log) && Placed(LowerBody(body, cl, params).log, Point(0, 0))
    ensures forall ev :: ev in LowerBody(body, cl, params).log ==> ev.src.block != 1
  {
    hide Placed, Laid, LowerBody;
    GoodLowering(body, cl, params, Mode(1, true, true, false));
    LaidOut(LowerBody(body, cl, params).log);
    ExitBare(body, cl, params);
  }

  /** Without let-else every graph of such a body is sealed. */
  lemma LetElseFreeSealed(body: Block, cl: Classification, params: seq<string>)
    requires FitsB(body, false, false, cl)
    ensures Sealed(LowerBody(body, cl, params).log)
  {
    hide LowerBody;
    GoodLowering(body, cl, params, Mode(1, false, false, false));
  }

  lemma FromStart(log: seq<Event>, bs: seq<nat>)
    requires WalkTo(log, bs, 0, 1)
    ensures WalkUses(log, bs) == Marks(BlockSteps(log, 0)[0..]) + WalkUses(log, bs[1..])
  {
    UsesAreMarks(log, 0);
    assert BlockSteps(log, 0)[0..] == BlockSteps(log, 0);
  }

  // ── The same about the blocks that are built ─────────────────────

  ghost predicate BlockWalk(g: seq<BasicBlock>, bs: seq<nat>) {
    && bs != [] && bs[0] == 0 && bs[|bs| - 1] == 1
    && (forall i :: 0 <= i < |bs| ==> bs[i] < |g|)
    && (forall i :: 0 <= i < |bs| - 1 ==> bs[i + 1] in g[bs[i]].successors)
  }

  function UsesAlong(g: seq<BasicBlock>, bs: seq<nat>): seq<UseSite> {
    if bs == [] then []
    else (if bs[0] < |g| then EraseAll(g[bs[0]].uses) else []) + UsesAlong(g, bs[1..])
  }

  ghost predicate SomeBlockWalk(g: seq<BasicBlock>, tr: seq<UseSite>) {
    exists bs :: BlockWalk(g, bs) && UsesAlong(g, bs) == tr
  }

  lemma {:induction false} SameUses(log: seq<Event>, n: nat, bs: seq<nat>)
    requires forall i :: 0 <= i < |bs| ==> bs[i] < n
    ensures UsesAlong(Blocks(log, n), bs) == WalkUses(log, bs)
  {
    if bs != [] {
      SameUses(log, n, bs[1..]);
    }
  }

  lemma SameWalks(log: seq<Event>, n: nat, bs: seq<nat>)
    requires n >= 2 && forall ev :: ev in log && ev.Jump? ==> ev.src.block < n && ev.dst < n
    ensures WalkTo(log, bs, 0, 1) <==> BlockWalk(Blocks(log, n), bs)
  {
    var g := Blocks(log, n);
    forall b: nat { SuccsAreEdges(log, b); }
    if WalkTo(log, bs, 0, 1) {
      forall i | 0 <= i < |bs|
        ensures bs[i] < n
      {
        if i < |bs| - 1 {
          assert Edge(log, bs[i], bs[i + 1]);
        }
      }
      forall i | 0 <= i < |bs| - 1
        ensures bs[i + 1] in g[bs[i]].successors
      {
        assert Edge(log, bs[i], bs[i + 1]);
      }
    }
    if BlockWalk(g, bs) {
      forall i | 0 <= i < |bs| - 1
        ensures Edge(log, bs[i], bs[i + 1])
      {
        assert bs[i + 1] in g[bs[i]].successors;
      }
    }
  }

  /** The blocks, their uses and their successor lists mean the same as the body. */
  lemma GraphMeaning(body: Block, cl: Classification, params: seq<string>, tr: seq<UseSite>)
    requires PlainB(body, true, cl) && Sealed(LowerBody(body, cl, params).log)
    ensures var f := LowerBody(body, cl, params); SomeRun(cl, body, tr) <==> SomeBlockWalk(Blocks(f.log, f.next), tr)
  {
    hide PlainB, LowerBody, SomeRun, WalkTo, BlockWalk, WalkUses, UsesAlong, Sealed;
    var f := LowerBody(body, cl, params);
    MeaningPreserved(body, cl, params, tr);
    KnownBlocks(body, cl, params);
    forall bs
      ensures WalkTo(f.log, bs, 0, 1) <==> BlockWalk(Blocks(f.log, f.next), bs)
      ensures BlockWalk(Blocks(f.log, f.next), bs) ==> UsesAlong(Blocks(f.log, f.next), bs) == WalkUses(f.log, bs)
    {
      SameWalks(f.log, f.next, bs);
      if BlockWalk(Blocks(f.log, f.next), bs) {
        WalkBlocks(Blocks(f.log, f.next), bs);
        SameUses(f.log, f.next, bs);
      }
    }
  }

  lemma WalkBlocks(g: seq<BasicBlock>, bs: seq<nat>)
    requires BlockWalk(g, bs)
    ensures forall i :: 0 <= i < |bs| ==> bs[i] < |g|
  {
  }

  lemma KnownBlocks(body: Block, cl: Classification, params: seq<string>)
    ensures var f := LowerBody(body, cl, params);
        f.next >= 2 && forall ev :: ev in f.log && ev.Jump? ==> ev.src.block < f.next && ev.dst < f.next
  {
    hide LowerBody;
    GoodLowering(body, cl, params, Mode(1, true, true, false));
  }
}
