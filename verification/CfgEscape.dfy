/** A sink branch that a `break` leaves is not closed, and what follows the loop may be
    reached through it only: then it dominates uses that are lowered later. */
module CfgEscape {
  import opened Options
  import opened CfgSyntax
  import opened CfgLowering
  import opened CfgGood
  import opened CfgGraph
  import opened CfgDominance
  import opened CfgMeaning

  /** `loop { v.push(break) }` and a use of `x`; the argument at span 7 is a sink. */
  function Pushing(): Expr {
    MethodCall(Leaf, ACons(7, Break(None, Leaf), ANil))
  }

  function BreakInSink(): Block {
    Then(ExprStmt(Loop(None, Done(Pushing()))), Done(Use("x", 1)))
  }

  function Sinking(): Classification {
    Classification(map[], {7}, map[], map[])
  }

  /** Block 4 is the sink branch, and block 3 follows the loop. */
  function EscapeLog(u: UseSite): seq<Event> {
    [Jump(Point(0, 0), 2, false), Jump(Point(2, 0), 4, false), Jump(Point(2, 0), 5, false), Jump(Point(4, 0), 3, false),
     SinkMark(Point(4, 0), 6, 7, false, false), Jump(Point(5, 0), 2, true), LoopMark(Point(2, 0), 7, 3),
     Step(Point(3, 0), Some(u)), Jump(Point(3, 1), 1, false)]
  }

  /** The reachable sink branch dominates the later use. */
  lemma LeftBranchDominates()
    ensures var log := LowerBody(BreakInSink(), Sinking(), []).log;
      exists i, j, x :: 0 <= i < j < |log| && log[i].SinkMark? && !log[i].nested && !log[i].closed && InMark(log[i], x)
        && log[j].Step? && Reachable(log, x) && Reachable(log, log[j].src.block) && Dominates(log, x, log[j].src.block)
  {
    var u := LeafUse(Sinking(), "x", 1);
    var log := EscapeLog(u);
    EscapeIsLowered();
    hide LowerBody, Dominates, Reachable;
    ThroughBranch(log, u);
    assert log[4].SinkMark? && InMark(log[4], 4) && log[7].Step? && log[7].src.block == 3;
  }

  lemma ThroughBranch(log: seq<Event>, u: UseSite)
    requires log == EscapeLog(u)
    ensures Reachable(log, 4) && Reachable(log, 3) && Dominates(log, 4, 3)
  {
    assert log[0] == Jump(Point(0, 0), 2, false) && log[1] == Jump(Point(2, 0), 4, false) &&
        log[3] == Jump(Point(4, 0), 3, false);
    assert Edge(log, 0, 2) && Edge(log, 2, 4) && Edge(log, 4, 3);
    assert WalkTo(log, [0, 2, 4], 0, 4);
    assert WalkTo(log, [0, 2, 4, 3], 0, 3);
    forall bs | WalkTo(log, bs, 0, 3)
      ensures 4 in bs
    {
      var k := |bs| - 2;
      assert Edge(log, bs[k], bs[k + 1]);
      assert bs[k] == 4;
    }
  }

  lemma EscapeIsLowered()
    ensures LowerBody(BreakInSink(), Sinking(), []).log == EscapeLog(LeafUse(Sinking(), "x", 1))
  {
    hide LowerE;
    var c := Top(Sinking());
    var r := Start([]);
    var first := LowerE(Loop(None, Done(Pushing())), InScope(c, []), Point(0, 0), 2, r);
    LoopLowered(InScope(c, []), r);
    var last := LowerRest(Done(Use("x", 1)), [], c, Point(3, 0), 7, r);
    UseLowered(c, r);
    hide LowerRest, BreakInSink, LeafUse;
    BodyLowered(first, last);
  }

  lemma UseLowered(c: Ctx, r: Ren)
    requires c == Top(Sinking()) && r.stack == []
    ensures LowerRest(Done(Use("x", 1)), [], c, Point(3, 0), 7, r)
      == Frag([Step(Point(3, 0), Some(LeafUse(Sinking(), "x", 1)))], Point(3, 1), 7, r)
  {
    var c1 := InScope(c, []);
    var u := LowerE(Use("x", 1), c1, Point(3, 0), 7, r);
    assert u == Frag([Step(Point(3, 0), Some(LeafUse(Sinking(), "x", 1)))], Point(3, 1), 7, r);
    hide LowerE, LeafUse;
    assert FrameBodies([], false) == [];
    assert LowerRest(Done(Use("x", 1)), [], c, Point(3, 0), 7, r) == Cat(u, LowerChain([], c, u.out, u.next, u.ren));
  }

  lemma BodyLowered(first: Frag, last: Frag)
    requires first == LowerE(Loop(None, Done(Pushing())), InScope(Top(Sinking()), []), Point(0, 0), 2, Start([]))
    requires last == LowerRest(Done(Use("x", 1)), [], Top(Sinking()), first.out, first.next, first.ren)
    ensures LowerBody(BreakInSink(), Sinking(), []).log == first.log + last.log + [Jump(last.out, 1, false)]
  {
    hide LowerE, LowerRest;
    var s := ExprStmt(Loop(None, Done(Pushing())));
    RestStep(s, Done(Use("x", 1)), [], Top(Sinking()), Point(0, 0), 2, Start([]));
    assert StmtFrag(s, InScope(Top(Sinking()), []), Point(0, 0), 2, Start([])) == first by {
      assert first.log + [] == first.log;
    }
  }

  lemma LoopLowered(c1: Ctx, r: Ren)
    requires c1.cl == Sinking() && c1.exit == 1 && c1.loops == [] && c1.frames == [[]] && !c1.inSink && r.stack == []
    ensures LowerE(Loop(None, Done(Pushing())), c1, Point(0, 0), 2, r)
      == Frag([Jump(Point(0, 0), 2, false), Jump(Point(2, 0), 4, false), Jump(Point(2, 0), 5, false),
          Jump(Point(4, 0), 3, false),
               SinkMark(Point(4, 0), 6, 7, false, false), Jump(Point(5, 0), 2, true), LoopMark(Point(2, 0), 7, 3)],
                   Point(3, 0), 7, r)
  {
    var c2 := InLoop(c1, None, 3, 2);
    var c3 := InScope(c2, []);
    var p := Point(2, 0);
    PushLowered(c3, r);
    var call := LowerE(Pushing(), c3, p, 4, r);
    assert LowerE(Loop(None, Done(Pushing())), c1, Point(0, 0), 2, r) ==
        LowerLoop(None, None, None, Done(Pushing()), c1, Point(0, 0), 2, r);
    hide LowerE;
    assert FrameBodies([], false) == [];
    var g := LowerRest(Done(Pushing()), [], c2, p, 4, r);
    assert g == Cat(call, LowerChain([], c2, call.out, call.next, call.ren));
    assert LowerBlock(Done(Pushing()), c2, p, 4, r) == g;
    assert LowerHead(None, None, c1, Point(0, 0), 2, r) == Frag([Jump(Point(0, 0), 2, false)], p, 4, r);
  }

  lemma PushLowered(c: Ctx, r: Ren)
    requires c.cl == Sinking() && c.loops == [LoopFrame(None, 3, 2, 1)] && c.frames == [[], []] && !c.inSink &&
        r.stack == []
    ensures LowerE(Pushing(), c, Point(2, 0), 4, r)
      == Frag([Jump(Point(2, 0), 4, false), Jump(Point(2, 0), 5, false), Jump(Point(4, 0), 3, false),
          SinkMark(Point(4, 0), 6, 7, false, false)],
              Point(5, 0), 7, r)
  {
    var args := ACons(7, Break(None, Leaf), ANil);
    var none := Frag([], Point(2, 0), 4, r);
    assert LowerE(Leaf, c, Point(2, 0), 4, r) == none;
    assert LowerArgs(args, c, Point(2, 0), 4, r) == LowerArgs(ANil, c, Point(2, 0), 4, r) == none;
    var c1 := c.(inSink := true);
    BreakLowered(c1, r);
    var f := LowerE(Break(None, Leaf), c1, Point(4, 0), 6, r);
    assert LowerSinks(args, c1, Point(4, 0), 6, r).log == f.log + [];
    assert LowerSinks(args, c1, Point(4, 0), 6, r).next == 7 && LowerSinks(args, c1, Point(4, 0), 6, r).ren == r;
    assert 0 in LeavesE(Break(None, Leaf), Labels(c.loops));
    assert 0 in LeavesSinks(args, c.cl, Labels(c.loops));
  }

  lemma BreakLowered(c: Ctx, r: Ren)
    requires c.loops == [LoopFrame(None, 3, 2, 1)] && c.frames == [[], []] && r.stack == []
    ensures LowerE(Break(None, Leaf), c, Point(4, 0), 6, r) == Frag([Jump(Point(4, 0), 3, false)], Point(6, 0), 7, r)
  {
    assert c.frames[..1] == [[]];
    assert FrameBodies([], false) == [];
    assert Bodies(c.frames, 1, false) == FrameBodies([], false) + Bodies([[]], 1, false);
    assert Resolve(c.loops, None) == Some(0);
    assert TargetOf(c, Brk(None)) == Some(Target([], 3, false));
    var none := Frag([], Point(4, 0), 6, r);
    assert LowerE(Leaf, c, Point(4, 0), 6, r) == none;
    assert Unwind(Brk(None), c, Point(4, 0), 6, r) == none;
    assert none.log + none.log == [];
  }
}
