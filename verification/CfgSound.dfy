/** Every run of the source is a path of the graph: whatever branches it takes
    and however often it loops, its uses are the uses along some path. */
module CfgSound {
  import opened Options
  import opened CfgSyntax
  import opened CfgLowering
  import opened CfgRuns
  import opened CfgPaths

  /** After a fragment that ends at `out` with outcome `o`: the path goes on
      from `out`, or, past the pending cleanup `cs`, from where the exit leads. */
  ghost predicate Goes(G: seq<Event>, c: Ctx, out: Point, o: Outcome, cs: Runs, tail: seq<UseSite>, z: Point) {
    if o == Normal then Reach(G, out, tail, z)
    else
      && TargetOf(c, o).Some?
      && RunBodies(c.cl, TargetOf(c, o).value.bodies, cs)
      && Reach(G, Point(TargetOf(c, o).value.dst, 0), tail, z)
  }

  function After(o: Outcome, cs: Runs, tail: seq<UseSite>): seq<UseSite> {
    if o == Normal then tail else TraceAll(cs) + tail
  }

  /** The scopes around a loop are among the scopes around its body. */
  ghost predicate Scoped(c: Ctx) {
    forall i :: 0 <= i < |c.loops| ==> c.loops[i].depth <= |c.frames|
  }

  lemma {:induction false} SoundE(e: Expr, c: Ctx, p: Point, n: nat, r: Ren, G: seq<Event>,
                                  t: Run, cs: Runs, tail: seq<UseSite>, z: Point)
    requires Scoped(c) && RunE(c.cl, e, t) && Within(LowerE(e, c, p, n, r).log, G)
    requires Goes(G, c, LowerE(e, c, p, n, r).out, Out(t), cs, tail, z)
    ensures Reach(G, p, Trace(t) + After(Out(t), cs, tail), z)
    decreases RunSize(t) + RunsSize(cs), SizeE(e), 5
  {
    hide TargetOf, RunEs, RunArms, RunLoop, LowerLoop;
    match e
    case Leaf => assert [] + tail == tail;
    case Use(name, span) =>
      var u := Rename(r, LeafUse(c.cl, name, span));
      assert Step(p, Some(u)) in LowerE(e, c, p, n, r).log;
      StepReach(G, p, u, tail, z);
    case Ops(_, es) => SoundEs(es, c, p, n, r, G, t, cs, tail, z);
    case BlockE(b) => SoundBlock(b, c, p, n, r, G, t, cs, tail, z);
    case If(_, _, _, _) => SoundIf(e, c, p, n, r, G, t, cs, tail, z);
    case Match(_, _) => SoundMatch(e, c, p, n, r, G, t, cs, tail, z);
    case While(l, cond, b) => SoundLoop(Some(cond), None, l, b, c, p, n, r, G, t, cs, tail, z);
    case For(l, pat, it, b) => SoundFor(e, c, p, n, r, G, t, cs, tail, z);
    case Loop(l, b) => SoundLoop(None, None, l, b, c, p, n, r, G, t, cs, tail, z);
    case Break(l, v) => SoundExit(v, Brk(l), c, p, n, r, G, t, cs, tail, z);
    case Continue(l) => SoundLeave(Frag([], p, n, r), Cont(l), c, G, cs, tail, z);
      assert [] + After(Out(t), cs, tail) == After(Out(t), cs, tail);
    case Return(v) => SoundExit(v, Ret, c, p, n, r, G, t, cs, tail, z);
    case Question(x) => SoundQuestion(e, c, p, n, r, G, t, cs, tail, z);
    case MethodCall(o, args) => SoundCall(e, c, p, n, r, G, t, cs, tail, z);
  }

  /** A fragment that is followed by more: an early exit skips the rest. */
  lemma {:induction false} SoundEs(es: Exprs, c: Ctx, p: Point, n: nat, r: Ren, G: seq<Event>,
                                   t: Run, cs: Runs, tail: seq<UseSite>, z: Point)
    requires Scoped(c) && RunEs(c.cl, es, t) && Within(LowerEs(es, c, p, n, r).log, G)
    requires Goes(G, c, LowerEs(es, c, p, n, r).out, Out(t), cs, tail, z)
    ensures Reach(G, p, Trace(t) + After(Out(t), cs, tail), z)
    decreases RunSize(t) + RunsSize(cs), SizeEs(es), 3
  {
    match es
    case ENil => assert [] + tail == tail;
    case ECons(h, tl) =>
      var f := LowerE(h, c, p, n, r);
      if RunE(c.cl, h, t) && Out(t) != Normal {
        SoundE(h, c, p, n, r, G, t, cs, tail, z);
      } else {
        SoundEs(tl, c, f.out, f.next, f.ren, G, t.second, cs, tail, z);
        SoundE(h, c, p, n, r, G, t.first, RNil, Trace(t.second) + After(Out(t), cs, tail), z);
        Assoc(Trace(t.first), Trace(t.second), After(Out(t), cs, tail));
      }
  }

  /** The definitions, unfolded once. */
  lemma Parts(t: Run)
    ensures t.Seq? ==> Out(t) == Out(t.second) && Trace(t) == Trace(t.first) + Trace(t.second)
                       && RunSize(t) == 1 + RunSize(t.first) + RunSize(t.second)
    ensures t.Emit? ==> Out(t) == Normal && Trace(t) == t.uses
    ensures t.Exit? ==> Out(t) == t.o && Trace(t) == []
    ensures t.Caught? ==> Out(t) == Normal && Trace(t) == Trace(t.inner) && RunSize(t) == 1 + RunSize(t.inner)
  {
  }

  lemma Assoc(a: seq<UseSite>, b: seq<UseSite>, c: seq<UseSite>)
    ensures a + (b + c) == (a + b) + c
  {
  }

  lemma {:induction false} SoundIf(e: Expr, c: Ctx, p: Point, n: nat, r: Ren, G: seq<Event>,
                                   t: Run, cs: Runs, tail: seq<UseSite>, z: Point)
    requires e.If?
    requires Scoped(c) && RunE(c.cl, e, t) && Within(LowerE(e, c, p, n, r).log, G)
    requires Goes(G, c, LowerE(e, c, p, n, r).out, Out(t), cs, tail, z)
    ensures Reach(G, p, Trace(t) + After(Out(t), cs, tail), z)
    decreases RunSize(t) + RunsSize(cs), SizeE(e), 4
  {
    hide LowerThen, TargetOf;
    var f := LowerE(e.cond, c, p, n, r);
    var th := LowerThen(e.pat, e.thenBranch, c, f.next, f.ren);
    var k := Cat(f, Enter(f.out, f.next, th));
    var whole := LowerE(e, c, p, n, r);
    assert Within(k.log, whole.log);
    if RunE(c.cl, e.cond, t) && Out(t) != Normal {
      SoundE(e.cond, c, p, n, r, G, t, cs, tail, z);
    } else {
      var s := t.second;
      var rest := Trace(s) + After(Out(t), cs, tail);
      Parts(t);
      Parts(s);
      if s.Seq? && s.first == Emit(Defines(e.pat.names, e.pat.span)) && RunB(c.cl, e.thenBranch, [], s.second) {
        assert Jump(k.out, k.next, false) in whole.log;
        if Out(t) == Normal {
          JumpReach(G, k.out, k.next, false, tail, z);
        }
        SoundThen(e.pat, e.thenBranch, c, f.next, f.ren, G, s.second, cs, tail, z);
        assert Jump(f.out, f.next, false) in Enter(f.out, f.next, th).log;
        Assoc(Defines(e.pat.names, e.pat.span), Trace(s.second), After(Out(t), cs, tail));
        JumpReach(G, f.out, f.next, false, rest, z);
      } else if e.elseBranch.None? {
        assert Jump(f.out, k.next, false) in whole.log;
        assert rest == tail;
        JumpReach(G, f.out, k.next, false, tail, z);
      } else {
        SoundElse(e.elseBranch.value, c, f.out, k, G, s, cs, tail, z);
      }
      SoundE(e.cond, c, p, n, r, G, t.first, RNil, rest, z);
      Assoc(Trace(t.first), Trace(s), After(Out(t), cs, tail));
    }
  }

  lemma {:induction false} SoundElse(x: Expr, c: Ctx, q: Point, k: Frag, G: seq<Event>,
                                     t: Run, cs: Runs, tail: seq<UseSite>, z: Point)
    requires Scoped(c) && RunE(c.cl, x, t)
    requires Within(Branch(q, k.next, k.next + 1, LowerE(x, c, Point(k.next + 1, 0), k.next + 2, k.ren)).log, G)
    requires Goes(G, c, Point(k.next, 0), Out(t), cs, tail, z)
    ensures Reach(G, q, Trace(t) + After(Out(t), cs, tail), z)
    decreases RunSize(t) + RunsSize(cs), SizeE(x), 6
  {
    var h := LowerE(x, c, Point(k.next + 1, 0), k.next + 2, k.ren);
    var b := Branch(q, k.next, k.next + 1, h);
    assert Jump(h.out, k.next, false) in b.log && Jump(q, k.next + 1, false) in b.log;
    if Out(t) == Normal {
      JumpReach(G, h.out, k.next, false, tail, z);
    }
    SoundE(x, c, Point(k.next + 1, 0), k.next + 2, k.ren, G, t, cs, tail, z);
    JumpReach(G, q, k.next + 1, false, Trace(t) + After(Out(t), cs, tail), z);
  }

  lemma {:induction false} SoundThen(pat: Pat, b: Block, c: Ctx, n: nat, r: Ren, G: seq<Event>,
                                     t: Run, cs: Runs, tail: seq<UseSite>, z: Point)
    requires Scoped(c) && RunB(c.cl, b, [], t) && Within(LowerThen(pat, b, c, n, r).log, G)
    requires Goes(G, c, LowerThen(pat, b, c, n, r).out, Out(t), cs, tail, z)
    ensures Reach(G, Point(n, 0), Defines(pat.names, pat.span) + (Trace(t) + After(Out(t), cs, tail)), z)
    decreases RunSize(t) + RunsSize(cs), SizeB(b), 4
  {
    var d := LowerDefs(pat.names, pat.span, Point(n, 0), n + 1, r);
    SoundBlock(b, c, d.out, n + 1, d.ren, G, t, cs, tail, z);
    DefsReach(pat.names, pat.span, Point(n, 0), n + 1, r, G, Trace(t) + After(Out(t), cs, tail), z);
  }

  lemma {:induction false} SoundMatch(e: Expr, c: Ctx, p: Point, n: nat, r: Ren, G: seq<Event>,
                                      t: Run, cs: Runs, tail: seq<UseSite>, z: Point)
    requires e.Match?
    requires Scoped(c) && RunE(c.cl, e, t) && Within(LowerE(e, c, p, n, r).log, G)
    requires Goes(G, c, LowerE(e, c, p, n, r).out, Out(t), cs, tail, z)
    ensures Reach(G, p, Trace(t) + After(Out(t), cs, tail), z)
    decreases RunSize(t) + RunsSize(cs), SizeE(e), 4
  {
    hide LowerArms, TargetOf;
    var f := LowerE(e.scrutinee, c, p, n, r);
    var whole := LowerE(e, c, p, n, r);
    assert Within(f.log, whole.log);
    if RunE(c.cl, e.scrutinee, t) && Out(t) != Normal {
      SoundE(e.scrutinee, c, p, n, r, G, t, cs, tail, z);
    } else {
      var rest := Trace(t.second) + After(Out(t), cs, tail);
      Parts(t);
      if e.arms.NoArm? {
        Parts(t.second);
        assert Jump(f.out, f.next, false) in whole.log;
        assert rest == tail;
        JumpReach(G, f.out, f.next, false, tail, z);
      } else {
        SoundArms(e.arms, c, f.out, f.next, f.next + 1, f.ren, G, t.second, cs, tail, z);
      }
      SoundE(e.scrutinee, c, p, n, r, G, t.first, RNil, rest, z);
      Assoc(Trace(t.first), Trace(t.second), After(Out(t), cs, tail));
    }
  }

  lemma {:induction false} SoundArms(arms: Arms, c: Ctx, q: Point, merge: nat, n: nat, r: Ren, G: seq<Event>,
                                     t: Run, cs: Runs, tail: seq<UseSite>, z: Point)
    requires Scoped(c) && RunArms(c.cl, arms, t) && Within(LowerArms(arms, c, q, merge, n, r).log, G)
    requires Goes(G, c, Point(merge, 0), Out(t), cs, tail, z)
    ensures Reach(G, q, Trace(t) + After(Out(t), cs, tail), z)
    decreases RunSize(t) + RunsSize(cs), SizeArms(arms), 4
  {
    var f := LowerArm(arms.pat, arms.guard, arms.body, c, n, r);
    var b := Branch(q, merge, n, f);
    var rest := LowerArms(arms.others, c, q, merge, f.next, PopFrame(f.ren));
    assert LowerArms(arms, c, q, merge, n, r) == Cat(b, rest);
    if RunArms(c.cl, arms.others, t) {
      SoundArms(arms.others, c, q, merge, f.next, PopFrame(f.ren), G, t, cs, tail, z);
    } else {
      assert Jump(f.out, merge, false) in b.log && Jump(q, n, false) in b.log;
      Parts(t);
      Parts(t.first);
      if Out(t) == Normal {
        JumpReach(G, f.out, merge, false, tail, z);
      }
      var d := LowerDefs(arms.pat.names, arms.pat.span, Point(n, 0), n + 1, PushFrame(r, InArm));
      assert LowerE(arms.guard, c, d.out, n + 1, d.ren) == Frag([], d.out, n + 1, d.ren);
      SoundE(arms.body, c, d.out, n + 1, d.ren, G, t.second, cs, tail, z);
      DefsReach(arms.pat.names, arms.pat.span, Point(n, 0), n + 1, PushFrame(r, InArm), G,
          Trace(t.second) + After(Out(t), cs, tail), z);
      Assoc(Defines(arms.pat.names, arms.pat.span), Trace(t.second), After(Out(t), cs, tail));
      JumpReach(G, q, n, false, Trace(t) + After(Out(t), cs, tail), z);
    }
  }

  lemma {:induction false} SoundFor(e: Expr, c: Ctx, p: Point, n: nat, r: Ren, G: seq<Event>,
                                    t: Run, cs: Runs, tail: seq<UseSite>, z: Point)
    requires e.For?
    requires Scoped(c) && RunE(c.cl, e, t) && Within(LowerE(e, c, p, n, r).log, G)
    requires Goes(G, c, LowerE(e, c, p, n, r).out, Out(t), cs, tail, z)
    ensures Reach(G, p, Trace(t) + After(Out(t), cs, tail), z)
    decreases RunSize(t) + RunsSize(cs), SizeE(e), 4
  {
    var f := LowerE(e.iterable, c, p, n, r);
    if RunE(c.cl, e.iterable, t) && Out(t) != Normal {
      SoundE(e.iterable, c, p, n, r, G, t, cs, tail, z);
    } else {
      SoundLoop(Some(Leaf), Some(e.pat), e.lbl, e.body, c, f.out, f.next, f.ren, G, t.second, cs, tail, z);
      SoundE(e.iterable, c, p, n, r, G, t.first, RNil, Trace(t.second) + After(Out(t), cs, tail), z);
      Assoc(Trace(t.first), Trace(t.second), After(Out(t), cs, tail));
    }
  }

  // ── Loops ────────────────────────────────────────────────────────

  /** Leaving for a loop further out, or returning, is the same inside the loop. */
  lemma OuterTarget(c: Ctx, lbl: Label, merge: nat, header: nat, o: Outcome)
    requires o != Normal && !Catches(lbl, o)
    ensures TargetOf(InLoop(c, lbl, merge, header), o) == TargetOf(c, o)
  {
    var c1 := InLoop(c, lbl, merge, header);
    assert c1.loops[..|c1.loops| - 1] == c.loops;
    if !o.Ret? && Resolve(c.loops, o.lbl).Some? {
      var i := Resolve(c.loops, o.lbl).value;
      assert c1.loops[..|c.loops|][i] == c1.loops[i];
    }
  }

  lemma InnerTarget(c: Ctx, lbl: Label, merge: nat, header: nat, o: Outcome)
    requires o.Brk? || o.Cont?
    requires Catches(lbl, o)
    ensures TargetOf(InLoop(c, lbl, merge, header), o) == Some(Target([], if o.Brk? then merge else header, o.Cont?))
  {
    var c1 := InLoop(c, lbl, merge, header);
    assert Resolve(c1.loops, o.lbl) == Some(|c.loops|);
  }

  lemma InLoopScoped(c: Ctx, lbl: Label, merge: nat, header: nat)
    requires Scoped(c)
    ensures Scoped(InLoop(c, lbl, merge, header))
  {
    var c1 := InLoop(c, lbl, merge, header);
    forall i | 0 <= i < |c1.loops|
      ensures c1.loops[i].depth <= |c1.frames|
    {
      if i < |c.loops| {
        assert c1.loops[..|c.loops|][i] == c1.loops[i];
      }
    }
  }

  lemma {:induction false} SoundLoop(cond: Option<Expr>, pat: Option<Pat>, lbl: Label, b: Block, c: Ctx, p: Point,
          n: nat, r: Ren,
                                     G: seq<Event>, t: Run, cs: Runs, tail: seq<UseSite>, z: Point)
    requires Scoped(c) && RunLoop(c.cl, cond, pat, lbl, b, t) && Within(LowerLoop(cond, pat, lbl, b, c, p, n, r).log, G)
    requires Goes(G, c, LowerLoop(cond, pat, lbl, b, c, p, n, r).out, Out(t), cs, tail, z)
    ensures Reach(G, p, Trace(t) + After(Out(t), cs, tail), z)
    decreases RunSize(t) + RunsSize(cs), CondSize(cond) + SizeB(b), 6
  {
    SoundHeader(cond, pat, lbl, b, c, p, n, r, G, t, cs, tail, z);
    assert Jump(p, n, false) in LowerHead(cond, pat, c, p, n, r).log;
    JumpReach(G, p, n, false, Trace(t) + After(Out(t), cs, tail), z);
  }

  /** From the header block on. */
  lemma {:induction false} SoundHeader(cond: Option<Expr>, pat: Option<Pat>, lbl: Label, b: Block, c: Ctx, p: Point,
          n: nat, r: Ren,
                                       G: seq<Event>, t: Run, cs: Runs, tail: seq<UseSite>, z: Point)
    requires Scoped(c) && RunLoop(c.cl, cond, pat, lbl, b, t) && Within(LowerLoop(cond, pat, lbl, b, c, p, n, r).log, G)
    requires Goes(G, c, LowerLoop(cond, pat, lbl, b, c, p, n, r).out, Out(t), cs, tail, z)
    ensures Reach(G, Point(n, 0), Trace(t) + After(Out(t), cs, tail), z)
    decreases RunSize(t) + RunsSize(cs), CondSize(cond) + SizeB(b), 5
  {
    match cond
    case None => SoundRound(cond, pat, lbl, b, c, p, n, r, G, t, cs, tail, z);
    case Some(e) =>
      var f := LowerE(e, c, Point(n, 0), n + 1, r);
      HeadWithin(e, pat, lbl, b, c, p, n, r, f);
      if RunE(c.cl, e, t) && Out(t) != Normal {
        SoundE(e, c, Point(n, 0), n + 1, r, G, t, cs, tail, z);
      } else {
        Parts(t);
        SoundCond(e, pat, lbl, b, c, p, n, r, G, t.second, cs, tail, z, f);
        SoundE(e, c, Point(n, 0), n + 1, r, G, t.first, RNil, Trace(t.second) + After(Out(t), cs, tail), z);
        Assoc(Trace(t.first), Trace(t.second), After(Out(t), cs, tail));
      }
  }

  lemma HeadWithin(e: Expr, pat: Option<Pat>, lbl: Label, b: Block, c: Ctx, p: Point, n: nat, r: Ren, f: Frag)
    requires f == LowerE(e, c, Point(n, 0), n + 1, r)
    ensures Within(f.log, LowerLoop(Some(e), pat, lbl, b, c, p, n, r).log)
    ensures Jump(f.out, f.next, false) in LowerLoop(Some(e), pat, lbl, b, c, p, n, r).log
    ensures Jump(f.out, f.next + 1, false) in LowerLoop(Some(e), pat, lbl, b, c, p, n, r).log
    ensures LowerLoop(Some(e), pat, lbl, b, c, p, n, r).out == Point(f.next + 1, 0)
  {
    var h := LowerHead(Some(e), pat, c, p, n, r);
    var k := Heading(p, n, f);
    assert Jump(f.out, f.next, false) in k.log && Jump(f.out, f.next + 1, false) in k.log;
    assert Within(f.log, k.log) && Within(k.log, h.log);
  }

  /** From the end of the condition on: out of the loop, or into the body. */
  lemma {:induction false} SoundCond(e: Expr, pat: Option<Pat>, lbl: Label, b: Block, c: Ctx, p: Point, n: nat, r: Ren,
                                     G: seq<Event>, s: Run, cs: Runs, tail: seq<UseSite>, z: Point, f: Frag)
    requires f == LowerE(e, c, Point(n, 0), n + 1, r)
    requires Scoped(c) && Within(LowerLoop(Some(e), pat, lbl, b, c, p, n, r).log, G)
    requires s == Emit([]) ||
      (s.Seq? && s.first == Emit(LoopDefines(pat)) && RunRound(c.cl, Some(e), pat, lbl, b, s.second))
    requires Goes(G, c, LowerLoop(Some(e), pat, lbl, b, c, p, n, r).out, Out(s), cs, tail, z)
    ensures Reach(G, f.out, Trace(s) + After(Out(s), cs, tail), z)
    decreases RunSize(s) + RunsSize(cs), SizeE(e) + SizeB(b), 5
  {
    hide LowerLoop, LowerE, TargetOf;
    HeadWithin(e, pat, lbl, b, c, p, n, r, f);
    Parts(s);
    var rest := Trace(s) + After(Out(s), cs, tail);
    if s == Emit([]) {
      assert rest == tail;
      JumpReach(G, f.out, f.next + 1, false, tail, z);
    } else {
      SoundRound(Some(e), pat, lbl, b, c, p, n, r, G, s.second, cs, tail, z);
      HeadInLoop(Some(e), pat, lbl, b, c, p, n, r);
      HeadDefsReach(Some(e), pat, c, p, n, r, G, Trace(s.second) + After(Out(s), cs, tail), z);
      Assoc(LoopDefines(pat), Trace(s.second), After(Out(s), cs, tail));
      JumpReach(G, f.out, f.next, false, rest, z);
    }
  }

  lemma HeadInLoop(cond: Option<Expr>, pat: Option<Pat>, lbl: Label, b: Block, c: Ctx, p: Point, n: nat, r: Ren)
    ensures Within(LowerHead(cond, pat, c, p, n, r).log, LowerLoop(cond, pat, lbl, b, c, p, n, r).log)
  {
  }

  lemma HeadDefsReach(cond: Option<Expr>, pat: Option<Pat>, c: Ctx, p: Point, n: nat, r: Ren, G: seq<Event>,
          tr: seq<UseSite>, z: Point)
    requires cond.Some? && Within(LowerHead(cond, pat, c, p, n, r).log, G)
    requires Reach(G, LowerHead(cond, pat, c, p, n, r).out, tr, z)
    ensures Reach(G, Point(LowerE(cond.value, c, Point(n, 0), n + 1, r).next, 0), LoopDefines(pat) + tr, z)
  {
    var f := LowerE(cond.value, c, Point(n, 0), n + 1, r);
    var k := Heading(p, n, f);
    match pat
    case None => assert [] + tr == tr;
    case Some(pt) => DefsReach(pt.names, pt.span, k.out, k.next, PushFrame(k.ren, InFor), G, tr, z);
  }

  lemma {:induction false} SoundRound(cond: Option<Expr>, pat: Option<Pat>, lbl: Label, b: Block, c: Ctx, p: Point,
          n: nat, r: Ren,
                                      G: seq<Event>, t: Run, cs: Runs, tail: seq<UseSite>, z: Point)
    requires Scoped(c) && RunRound(c.cl, cond, pat, lbl, b, t) &&
        Within(LowerLoop(cond, pat, lbl, b, c, p, n, r).log, G)
    requires Goes(G, c, LowerLoop(cond, pat, lbl, b, c, p, n, r).out, Out(t), cs, tail, z)
    ensures Reach(G, LowerHead(cond, pat, c, p, n, r).out, Trace(t) + After(Out(t), cs, tail), z)
    decreases RunSize(t) + RunsSize(cs), CondSize(cond) + SizeB(b), 4
  {
    hide LowerHead, LowerBlock, TargetOf, RunLoop, RunB, Reach, RunE;
    var h := LowerHead(cond, pat, c, p, n, r);
    var c1 := InLoop(c, lbl, h.next - 1, n);
    var g := LowerBlock(b, c1, h.out, h.next, h.ren);
    InLoopScoped(c, lbl, h.next - 1, n);
    if RunB(c.cl, b, [], t) && Out(t) != Normal && !Catches(lbl, Out(t)) {
      OuterTarget(c, lbl, h.next - 1, n, Out(t));
      SoundBlock(b, c1, h.out, h.next, h.ren, G, t, cs, tail, z);
    } else if t.Caught? {
      Parts(t);
      InnerTarget(c, lbl, h.next - 1, n, Out(t.inner));
      SoundBlock(b, c1, h.out, h.next, h.ren, G, t.inner, RNil, tail, z);
      assert TraceAll(RNil) + tail == tail;
    } else {
      var x := t.first.inner;
      Parts(t);
      Parts(t.first);
      var rest := Trace(t.second) + After(Out(t), cs, tail);
      SoundHeader(cond, pat, lbl, b, c, p, n, r, G, t.second, cs, tail, z);
      if Out(x) == Normal {
        assert Jump(g.out, n, true) in LowerLoop(cond, pat, lbl, b, c, p, n, r).log;
        JumpReach(G, g.out, n, true, rest, z);
      } else {
        InnerTarget(c, lbl, h.next - 1, n, Out(x));
        assert TraceAll(RNil) + rest == rest;
      }
      SoundBlock(b, c1, h.out, h.next, h.ren, G, x, RNil, rest, z);
      Assoc(Trace(x), Trace(t.second), After(Out(t), cs, tail));
    }
  }

  // ── Exits ────────────────────────────────────────────────────────

  lemma {:induction false} SoundLeave(f: Frag, o: Outcome, c: Ctx, G: seq<Event>, cs: Runs, tail: seq<UseSite>,
          z: Point)
    requires o != Normal && Within(LowerExit(f, o, c).log, G) && Goes(G, c, LowerExit(f, o, c).out, o, cs, tail, z)
    ensures Reach(G, f.out, TraceAll(cs) + tail, z)
    decreases RunsSize(cs), 1, 0
  {
    var tg := TargetOf(c, o).value;
    var u := Unwind(o, c, f.out, f.next, f.ren);
    var k := Cat(f, u);
    assert Jump(k.out, tg.dst, tg.back) in Close(k, [Jump(k.out, tg.dst, tg.back)]).log;
    JumpReach(G, k.out, tg.dst, tg.back, tail, z);
    SoundChain(tg.bodies, c, f.out, f.next, f.ren, G, cs, tail, z);
  }

  lemma ExitWithin(f: Frag, o: Outcome, c: Ctx)
    requires o != Normal
    ensures Within(f.log, LowerExit(f, o, c).log)
  {
    hide TargetOf;
  }

  lemma {:induction false} SoundExit(v: Expr, o: Outcome, c: Ctx, p: Point, n: nat, r: Ren, G: seq<Event>,
                                     t: Run, cs: Runs, tail: seq<UseSite>, z: Point)
    requires o != Normal
    requires Scoped(c) && RunExit(c.cl, v, o, t) && Within(LowerExit(LowerE(v, c, p, n, r), o, c).log, G)
    requires Goes(G, c, LowerExit(LowerE(v, c, p, n, r), o, c).out, Out(t), cs, tail, z)
    ensures Reach(G, p, Trace(t) + After(Out(t), cs, tail), z)
    decreases RunSize(t) + RunsSize(cs), SizeE(v), 6
  {
    hide LowerE, TargetOf, LowerExit, RunE;
    var f := LowerE(v, c, p, n, r);
    ExitWithin(f, o, c);
    if RunE(c.cl, v, t) && Out(t) != Normal {
      SoundE(v, c, p, n, r, G, t, cs, tail, z);
    } else {
      Parts(t);
      Parts(t.second);
      SoundLeave(f, o, c, G, cs, tail, z);
      SoundE(v, c, p, n, r, G, t.first, RNil, TraceAll(cs) + tail, z);
      assert Trace(t) == Trace(t.first) + [];
    }
  }

  lemma {:induction false} SoundQuestion(e: Expr, c: Ctx, p: Point, n: nat, r: Ren, G: seq<Event>,
                                         t: Run, cs: Runs, tail: seq<UseSite>, z: Point)
    requires e.Question?
    requires Scoped(c) && RunE(c.cl, e, t) && Within(LowerE(e, c, p, n, r).log, G)
    requires Goes(G, c, LowerE(e, c, p, n, r).out, Out(t), cs, tail, z)
    ensures Reach(G, p, Trace(t) + After(Out(t), cs, tail), z)
    decreases RunSize(t) + RunsSize(cs), SizeE(e), 4
  {
    hide RunB;
    var f := LowerE(e.inner, c, p, n, r);
    var u := Unwind(Ret, c, f.out, f.next, f.ren);
    var k := Cat(f, u);
    var whole := LowerE(e, c, p, n, r);
    assert whole == Close(k, [Jump(k.out, c.exit, false), Jump(f.out, k.next, false)]);
    assert Within(f.log, whole.log) && Within(u.log, whole.log);
    assert Jump(k.out, c.exit, false) in whole.log && Jump(f.out, k.next, false) in whole.log;
    if RunE(c.cl, e.inner, t) {
      if Out(t) == Normal {
        JumpReach(G, f.out, k.next, false, tail, z);
      }
      SoundE(e.inner, c, p, n, r, G, t, cs, tail, z);
    } else {
      Parts(t);
      Parts(t.second);
      JumpReach(G, k.out, c.exit, false, tail, z);
      SoundChain(TargetOf(c, Ret).value.bodies, c, f.out, f.next, f.ren, G, cs, tail, z);
      SoundE(e.inner, c, p, n, r, G, t.first, RNil, TraceAll(cs) + tail, z);
      assert Trace(t) == Trace(t.first) + [];
    }
  }

  lemma {:induction false} ArgsAsOperands(args: Args, c: Ctx, p: Point, n: nat, r: Ren)
    requires !HasSink(args, c.cl)
    ensures LowerArgs(args, c, p, n, r) == LowerEs(Operands(args), c, p, n, r)
    decreases SizeArgs(args)
  {
    if args.ACons? {
      var f := LowerE(args.value, c, p, n, r);
      ArgsAsOperands(args.tail, c, f.out, f.next, f.ren);
    }
  }

  lemma {:induction false} SoundCall(e: Expr, c: Ctx, p: Point, n: nat, r: Ren, G: seq<Event>,
                                     t: Run, cs: Runs, tail: seq<UseSite>, z: Point)
    requires e.MethodCall? && !HasSink(e.actuals, c.cl)
    requires Scoped(c) && RunE(c.cl, e, t) && Within(LowerE(e, c, p, n, r).log, G)
    requires Goes(G, c, LowerE(e, c, p, n, r).out, Out(t), cs, tail, z)
    ensures Reach(G, p, Trace(t) + After(Out(t), cs, tail), z)
    decreases RunSize(t) + RunsSize(cs), SizeE(e), 4
  {
    var f := LowerE(e.receiver, c, p, n, r);
    ArgsAsOperands(e.actuals, c, f.out, f.next, f.ren);
    SoundEs(ECons(e.receiver, Operands(e.actuals)), c, p, n, r, G, t, cs, tail, z);
  }

  lemma {:induction false} SoundChain(bs: seq<Block>, c: Ctx, p: Point, n: nat, r: Ren, G: seq<Event>,
                                      ts: Runs, tail: seq<UseSite>, z: Point)
    requires RunBodies(c.cl, bs, ts) && Within(LowerChain(bs, c, p, n, r).log, G)
    requires Reach(G, LowerChain(bs, c, p, n, r).out, tail, z)
    ensures Reach(G, p, TraceAll(ts) + tail, z)
    decreases RunsSize(ts), 0, 0
  {
    match ts
    case RNil => assert [] + tail == tail;
    case RCons(h, tl) =>
      var c1 := CleanupCtx(c);
      var f := LowerBlock(bs[0], c1, Point(n, 0), n + 1, PushFrame(r, Cu));
      var g := LowerChain(bs[1..], c, f.out, f.next, PopFrame(f.ren));
      assert LowerChain(bs, c, p, n, r) == Cat(Enter(p, n, f), g);
      assert Jump(p, n, false) in Enter(p, n, f).log;
      SoundChain(bs[1..], c, f.out, f.next, PopFrame(f.ren), G, tl, tail, z);
      SoundBlock(bs[0], c1, Point(n, 0), n + 1, PushFrame(r, Cu), G, h, RNil, TraceAll(tl) + tail, z);
      Assoc(Trace(h), TraceAll(tl), tail);
      JumpReach(G, p, n, false, TraceAll(ts) + tail, z);
  }

  // ── Scopes ───────────────────────────────────────────────────────

  lemma {:induction false} SoundBlock(b: Block, c: Ctx, p: Point, n: nat, r: Ren, G: seq<Event>,
                                      t: Run, cs: Runs, tail: seq<UseSite>, z: Point)
    requires Scoped(c) && RunB(c.cl, b, [], t) && Within(LowerBlock(b, c, p, n, r).log, G)
    requires Goes(G, c, LowerBlock(b, c, p, n, r).out, Out(t), cs, tail, z)
    ensures Reach(G, p, Trace(t) + After(Out(t), cs, tail), z)
    decreases RunSize(t) + RunsSize(cs), SizeB(b), 3
  {
    SoundRest(b, [], c, p, n, r, G, t, cs, tail, z);
  }

  /** What an exit from inside the scope still has to run: this scope's items,
      then what is pending outside. */
  lemma ScopeTarget(c: Ctx, items: seq<Item>, o: Outcome)
    requires o != Normal && Scoped(c)
    ensures TargetOf(InScope(c, items), o).Some? <==> TargetOf(c, o).Some?
    ensures TargetOf(c, o).Some? ==>
      && TargetOf(InScope(c, items), o).value.dst == TargetOf(c, o).value.dst
      && TargetOf(InScope(c, items), o).value.bodies == FrameBodies(items, o == Ret) + TargetOf(c, o).value.bodies
  {
  }

  lemma ScopeScoped(c: Ctx, items: seq<Item>)
    requires Scoped(c)
    ensures Scoped(InScope(c, items))
  {
  }

  lemma ScopeGoes(G: seq<Event>, c: Ctx, items: seq<Item>, out: Point, o: Outcome, own: Runs, cs: Runs,
                  tail: seq<UseSite>, z: Point)
    requires o != Normal && Scoped(c) && RunBodies(c.cl, FrameBodies(items, o == Ret), own)
    requires Goes(G, c, out, o, cs, tail, z)
    ensures Goes(G, InScope(c, items), out, o, Append(own, cs), tail, z)
  {
    ScopeTarget(c, items, o);
    RunBodiesAppend(c.cl, FrameBodies(items, o == Ret), TargetOf(c, o).value.bodies, own, cs);
  }

  lemma {:induction false} SoundRest(b: Block, items: seq<Item>, c: Ctx, p: Point, n: nat, r: Ren, G: seq<Event>,
                                     t: Run, cs: Runs, tail: seq<UseSite>, z: Point)
    requires Scoped(c) && RunB(c.cl, b, items, t) && Within(LowerRest(b, items, c, p, n, r).log, G)
    requires Goes(G, c, LowerRest(b, items, c, p, n, r).out, Out(t), cs, tail, z)
    ensures Reach(G, p, Trace(t) + After(Out(t), cs, tail), z)
    decreases RunSize(t) + RunsSize(cs), SizeB(b), 2
  {
    match b
    case Done(e) => SoundDone(e, items, c, p, n, r, G, t, cs, tail, z);
    case Then(s, rest) =>
      match s
      case Defer(body) => SoundRest(rest, Push(items, Item(false, body)), c, p, n, r, G, t, cs, tail, z);
      case ErrDefer(body) => SoundRest(rest, Push(items, Item(true, body)), c, p, n, r, G, t, cs, tail, z);
      case LetElse(_, _, _) => SoundLetElse(s, rest, items, c, p, n, r, G, t, cs, tail, z);
      case Let(_, _) => SoundThenRest(s, rest, items, c, p, n, r, G, t, cs, tail, z);
      case LetUninit(_) => SoundThenRest(s, rest, items, c, p, n, r, G, t, cs, tail, z);
      case Assign(_, _) => SoundThenRest(s, rest, items, c, p, n, r, G, t, cs, tail, z);
      case ExprStmt(_) => SoundThenRest(s, rest, items, c, p, n, r, G, t, cs, tail, z);
  }

  lemma {:induction false} SoundDone(e: Expr, items: seq<Item>, c: Ctx, p: Point, n: nat, r: Ren, G: seq<Event>,
                                     t: Run, cs: Runs, tail: seq<UseSite>, z: Point)
    requires Scoped(c) && RunB(c.cl, Done(e), items, t) && Within(LowerRest(Done(e), items, c, p, n, r).log, G)
    requires Goes(G, c, LowerRest(Done(e), items, c, p, n, r).out, Out(t), cs, tail, z)
    ensures Reach(G, p, Trace(t) + After(Out(t), cs, tail), z)
    decreases RunSize(t) + RunsSize(cs), 0, 0
  {
    var c1 := InScope(c, items);
    ScopeScoped(c, items);
    var f := LowerE(e, c1, p, n, r);
    if Out(t) == Normal {
      SoundChain(FrameBodies(items, false), c, f.out, f.next, f.ren, G, t.cleanup, tail, z);
      SoundE(e, c1, p, n, r, G, t.inner, RNil, TraceAll(t.cleanup) + tail, z);
      Assoc(Trace(t.inner), TraceAll(t.cleanup), tail);
    } else {
      ScopeGoes(G, c, items, f.out, Out(t), t.cleanup, cs, tail, z);
      SizeAppend(t.cleanup, cs);
      SoundE(e, c1, p, n, r, G, t.inner, Append(t.cleanup, cs), tail, z);
      LeaveTrace(t, cs, tail);
    }
  }

  lemma LeaveTrace(t: Run, cs: Runs, tail: seq<UseSite>)
    requires t.Finally?
    ensures Trace(t.inner) + (TraceAll(Append(t.cleanup, cs)) + tail) == Trace(t) + (TraceAll(cs) + tail)
  {
    TraceAppend(t.cleanup, cs);
  }

  lemma {:induction false} SoundThenRest(s: Stmt, rest: Block, items: seq<Item>, c: Ctx, p: Point, n: nat, r: Ren,
          G: seq<Event>,
                                         t: Run, cs: Runs, tail: seq<UseSite>, z: Point)
    requires IsPlain(s)
    requires Scoped(c) && RunB(c.cl, Then(s, rest), items, t) &&
        Within(LowerRest(Then(s, rest), items, c, p, n, r).log, G)
    requires Goes(G, c, LowerRest(Then(s, rest), items, c, p, n, r).out, Out(t), cs, tail, z)
    ensures Reach(G, p, Trace(t) + After(Out(t), cs, tail), z)
    decreases RunSize(t) + RunsSize(cs), 0, 0
  {
    var c1 := InScope(c, items);
    ScopeScoped(c, items);
    var f := LowerPlain(s, c1, p, n, r);
    assert LowerRest(Then(s, rest), items, c, p, n, r) == Cat(f, LowerRest(rest, items, c, f.out, f.next, f.ren));
    if t.Finally? {
      ScopeGoes(G, c, items, f.out, Out(t), t.cleanup, cs, tail, z);
      SizeAppend(t.cleanup, cs);
      SoundPlain(s, c1, p, n, r, G, t.inner, Append(t.cleanup, cs), tail, z);
      LeaveTrace(t, cs, tail);
    } else {
      SoundRest(rest, items, c, f.out, f.next, f.ren, G, t.second, cs, tail, z);
      SoundPlain(s, c1, p, n, r, G, t.first, RNil, Trace(t.second) + After(Out(t), cs, tail), z);
      Assoc(Trace(t.first), Trace(t.second), After(Out(t), cs, tail));
    }
  }

  lemma {:induction false} SoundLetElse(s: Stmt, rest: Block, items: seq<Item>, c: Ctx, p: Point, n: nat, r: Ren,
          G: seq<Event>,
                                        t: Run, cs: Runs, tail: seq<UseSite>, z: Point)
    requires s.LetElse?
    requires Scoped(c) && RunB(c.cl, Then(s, rest), items, t) &&
        Within(LowerRest(Then(s, rest), items, c, p, n, r).log, G)
    requires Goes(G, c, LowerRest(Then(s, rest), items, c, p, n, r).out, Out(t), cs, tail, z)
    ensures Reach(G, p, Trace(t) + After(Out(t), cs, tail), z)
    decreases RunSize(t) + RunsSize(cs), 0, 0
  {
    hide LowerE, LowerBlock, TargetOf, NoteAll, AnySeen;
    var c1 := InScope(c, items);
    ScopeScoped(c, items);
    var f := LowerE(s.value, c1, p, n, r);
    var g := LowerBlock(s.diverge, c1, Point(f.next, 0), f.next + 1, NoteAll(s.pat.names, f.ren));
    var k := Aside(f, g);
    var r1 := if AnySeen(s.pat.names, f.ren) then NoteAll(s.pat.names, PushFrame(g.ren, Sh)) else g.ren;
    assert LowerRest(Then(s, rest), items, c, p, n, r) == Cat(k, LowerRest(rest, items, c, k.out, k.next, r1));
    if t.Finally? {
      ScopeGoes(G, c, items, f.out, Out(t), t.cleanup, cs, tail, z);
      SizeAppend(t.cleanup, cs);
      SoundAside(s, c1, p, n, r, G, t.inner, Append(t.cleanup, cs), tail, z);
      LeaveTrace(t, cs, tail);
    } else {
      var more := Trace(t.second) + After(Out(t), cs, tail);
      SoundRest(rest, items, c, k.out, k.next, r1, G, t.second, cs, tail, z);
      assert Step(f.out, None) in k.log;
      PassReach(G, f.out, more, z);
      SoundE(s.value, c1, p, n, r, G, t.first, RNil, more, z);
      Assoc(Trace(t.first), Trace(t.second), After(Out(t), cs, tail));
    }
  }

  /** The value of a let-else ends early, or its diverging block does. */
  lemma {:induction false} SoundAside(s: Stmt, c: Ctx, p: Point, n: nat, r: Ren, G: seq<Event>,
                                      t: Run, cs: Runs, tail: seq<UseSite>, z: Point)
    requires s.LetElse? && Scoped(c) && RunAside(c.cl, s.value, s.diverge, t) && Out(t) != Normal
    requires var f := LowerE(s.value, c, p, n, r);
      Within(Aside(f, LowerBlock(s.diverge, c, Point(f.next, 0), f.next + 1, NoteAll(s.pat.names, f.ren))).log, G)
    requires Goes(G, c, p, Out(t), cs, tail, z)
    ensures Reach(G, p, Trace(t) + After(Out(t), cs, tail), z)
    decreases RunSize(t) + RunsSize(cs), SizeS(s), 6
  {
    hide LowerE, LowerBlock, TargetOf, NoteAll;
    var f := LowerE(s.value, c, p, n, r);
    if RunE(c.cl, s.value, t) {
      SoundE(s.value, c, p, n, r, G, t, cs, tail, z);
    } else {
      Parts(t);
      var more := Trace(t.second) + After(Out(t), cs, tail);
      SoundBlock(s.diverge, c, Point(f.next, 0), f.next + 1, NoteAll(s.pat.names, f.ren), G, t.second, cs, tail, z);
      assert Jump(f.out, f.next, false) in f.log + [Jump(f.out, f.next, false)];
      JumpReach(G, f.out, f.next, false, more, z);
      SoundE(s.value, c, p, n, r, G, t.first, RNil, more, z);
      Assoc(Trace(t.first), Trace(t.second), After(Out(t), cs, tail));
    }
  }

  lemma {:induction false} SoundPlain(s: Stmt, c: Ctx, p: Point, n: nat, r: Ren, G: seq<Event>,
                                      t: Run, cs: Runs, tail: seq<UseSite>, z: Point)
    requires IsPlain(s)
    requires Scoped(c) && RunS(c.cl, s, t) && Within(LowerPlain(s, c, p, n, r).log, G)
    requires Goes(G, c, LowerPlain(s, c, p, n, r).out, Out(t), cs, tail, z)
    ensures Reach(G, p, Trace(t) + After(Out(t), cs, tail), z)
    decreases RunSize(t) + RunsSize(cs), SizeS(s), 6
  {
    StmtExprSize(s);
    var e := StmtExpr(s);
    var f := LowerE(e, c, p, n, r);
    if RunE(c.cl, e, t) && Out(t) != Normal {
      SoundE(e, c, p, n, r, G, t, cs, tail, z);
    } else {
      Parts(t);
      Parts(t.second);
      if s.Let? {
        assert LowerIntro(s, f.out, f.next, f.ren) ==
            LowerDefs(s.pat.names, s.pat.span, f.out, f.next, ShadowIfSeen(s.pat.names, f.ren));
        DefsReach(s.pat.names, s.pat.span, f.out, f.next, ShadowIfSeen(s.pat.names, f.ren), G, tail, z);
      } else {
        assert IntroUses(s) + tail == tail;
      }
      SoundE(e, c, p, n, r, G, t.first, RNil, IntroUses(s) + tail, z);
      Assoc(Trace(t.first), IntroUses(s), tail);
    }
  }
}
