/** The builder itself: a class that mints blocks, records uses and edges and
    keeps the stacks of scopes and rename frames. Each method is proved to write
    exactly what the lowering function says, so what is proved about the
    function holds of the graph the builder returns. The proofs also show that
    lowering terminates and leaves both stacks as high as it found them. */
module CfgBuilder {
  import opened Options
  import opened CfgSyntax
  import opened CfgLowering
  import opened CfgGood
  import opened CfgInvariant
  import opened CfgGraph
  import opened CfgTame

  class Builder {
    const classification: Classification
    var blocks: seq<BasicBlock>
    var deferStack: seq<seq<Item>>
    var renameStack: seq<RenFrame>
    var seenNames: set<string>
    var nextCleanupId: nat
    ghost var log: seq<Event>

    ghost function Now(): State
      reads this
    {
      State(log, |blocks|, Ren(renameStack, seenNames, nextCleanupId))
    }

    /** The blocks are the graph of the log. */
    ghost predicate Valid()
      reads this
    {
      blocks == Blocks(log, |blocks|) && Sane(Now())
    }

    constructor (classification: Classification, params: seq<string>)
      ensures Valid() && this.classification == classification && deferStack == []
      ensures Now() == State([], 0, Ren([], set i | 0 <= i < |params| :: params[i], 0))
    {
      this.classification := classification;
      blocks, deferStack, renameStack, nextCleanupId, log := [], [], [], 0, [];
      seenNames := set i | 0 <= i < |params| :: params[i];
    }

    // ── Blocks, edges, uses ────────────────────────────────────────

    method NewBlock() returns (id: nat)
      requires Valid()
      modifies `blocks
      ensures Valid() && id == old(|blocks|) && Now() == old(Now()).(next := id + 1)
      ensures blocks == old(blocks) + [BasicBlock([], [])]
    {
      BlocksGrow(log, |blocks|);
      id := |blocks|;
      blocks := blocks + [BasicBlock([], [])];
    }

    method AddEdge(from: nat, to: nat, ghost back: bool := false)
      requires Valid() && from < |blocks| && to < |blocks|
      modifies `blocks, `log
      ensures Valid() && Now() == old(Now()).(log := old(log) + [Jump(End(old(Now()), from), to, back)])
      ensures forall b: nat :: End(Now(), b) == End(old(Now()), b)
    {
      ghost var ev := Jump(End(Now(), from), to, back);
      BlocksSnoc(log, ev, |blocks|);
      SameEnds(Now(), ev);
      var successors := blocks[from].successors;
      assert blocks[from].uses + [] == blocks[from].uses;
      if to !in successors {
        blocks := blocks[from := blocks[from].(successors := successors + [to])];
      }
      log := log + [ev];
    }

    ghost method Mark(ev: Event)
      requires Valid() && IsMark(ev) && ev.src.block < |blocks|
      modifies `log
      ensures Valid() && Now() == old(Now()).(log := old(log) + [ev])
      ensures forall b: nat :: End(Now(), b) == End(old(Now()), b)
    {
      BlocksSnoc(log, ev, |blocks|);
      SameEnds(Now(), ev);
      assert blocks[ev.src.block].uses + [] == blocks[ev.src.block].uses;
      log := log + [ev];
    }

    /** Goes past a branch of the block; nothing is written. */
    ghost method Pass(block: nat)
      requires Valid() && block < |blocks|
      modifies `log
      ensures Valid() && Now() == old(Now()).(log := old(log) + [Step(End(old(Now()), block), None)])
    {
      ghost var ev := Step(End(Now(), block), None);
      BlocksSnoc(log, ev, |blocks|);
      assert blocks[block].uses + [] == blocks[block].uses;
      log := log + [ev];
    }

    /** The innermost frame that introduced the name decides its suffix. */
    method MangleBinding(name: string) returns (id: Ident)
      ensures id == Mangle(renameStack, name)
    {
      var i := |renameStack|;
      assert renameStack[..i] == renameStack;
      while i > 0
        invariant 0 <= i <= |renameStack|
        invariant Mangle(renameStack[..i], name) == Mangle(renameStack, name)
      {
        i := i - 1;
        assert renameStack[..i + 1][..i] == renameStack[..i];
        if name in renameStack[i].names {
          return Ident(name, renameStack[i].suffix);
        }
      }
      id := Ident(name, Bare);
    }

    method RecordUse(block: nat, use: UseSite)
      requires Valid() && block < |blocks|
      modifies `blocks, `log
      ensures Valid() && Now() == old(Now()).(log :=
          old(log) + [Step(End(old(Now()), block), Some(Rename(old(Now()).ren, use)))])
    {
      var binding := MangleBinding(use.binding.name);
      ghost var ev := Step(End(Now(), block), Some(Rename(Now().ren, use)));
      BlocksSnoc(log, ev, |blocks|);
      blocks := blocks[block := blocks[block].(uses := blocks[block].uses + [use.(binding := binding)])];
      log := log + [ev];
    }

    // ── Rename frames ──────────────────────────────────────────────

    method PushRenameFrame(kind: SuffixKind)
      requires Valid()
      modifies `renameStack, `nextCleanupId
      ensures Valid() && Now() == old(Now()).(ren := PushFrame(old(Now()).ren, kind))
    {
      renameStack := renameStack + [RenFrame(Tag(kind, nextCleanupId), {})];
      nextCleanupId := nextCleanupId + 1;
    }

    method PopRenameFrame()
      requires Valid() && renameStack != []
      modifies `renameStack
      ensures Valid() && Now() == old(Now()).(ren := PopFrame(old(Now()).ren))
    {
      renameStack := renameStack[..|renameStack| - 1];
    }

    method NoteLocalIntroduced(name: string)
      requires Valid()
      modifies `renameStack, `seenNames
      ensures Valid() && Now() == old(Now()).(ren := Note(old(Now()).ren, name))
    {
      seenNames := seenNames + {name};
      if renameStack != [] {
        var top := |renameStack| - 1;
        renameStack := renameStack[top := renameStack[top].(names := renameStack[top].names + {name})];
      }
    }

    method NoteAllIntroduced(names: seq<string>)
      requires Valid()
      modifies `renameStack, `seenNames
      ensures Valid() && Now() == old(Now()).(ren := NoteAll(names, old(Now()).ren))
    {
      for i := 0 to |names|
        invariant Valid() && Now() == old(Now()).(ren := Now().ren)
        invariant NoteAll(names[i..], Now().ren) == NoteAll(names, old(Now()).ren)
      {
        assert names[i..][1..] == names[i + 1..];
        NoteLocalIntroduced(names[i]);
      }
      assert names[|names|..] == [];
    }

    /** The names a pattern introduces, each noted and marked by a Define. */
    method IntroducePattern(pat: Pat, block: nat)
      requires Valid() && block < |blocks|
      modifies `renameStack, `seenNames, `blocks, `log
      ensures Valid() && Now() == Plus(old(Now()), FragDefs(old(Now()), block, pat)) && |blocks| == old(|blocks|)
      ensures |renameStack| == old(|renameStack|)
    {
      ghost var s0 := Now();
      ghost var done := Frag([], End(s0, block), s0.next, s0.ren);
      CatNone(done.out, done.next, done.ren, FragDefs(s0, block, pat));
      assert s0.log + [] == s0.log && pat.names[0..] == pat.names;
      for i := 0 to |pat.names|
        invariant Valid() && block < |blocks| == s0.next && done.next == s0.next
        invariant Now() == Plus(s0, done) && done.out == End(Now(), block)
        invariant FragDefs(s0, block, pat) ==
            Cat(done, LowerDefs(pat.names[i..], pat.span, done.out, done.next, done.ren))
        invariant |renameStack| == |s0.ren.stack|
      {
        ghost var one := OneDef(pat.names[i], pat.span, done.out, done.next, done.ren);
        DefsStep(pat.names[i..], pat.span, done, s0, block);
        assert pat.names[i..][1..] == pat.names[i + 1..];
        NoteLocalIntroduced(pat.names[i]);
        RecordUse(block, DefineUse(pat.names[i], pat.span));
        done := Cat(done, one);
      }
      assert done.log + [] == done.log;
    }

    // ── Expressions ────────────────────────────────────────────────

    /** Block `cur` is where execution goes on, and the stacks are seen as `v` says. */
    ghost predicate Ready(v: View, cur: nat, exit: nat, loops: seq<LoopFrame>)
      reads this
    {
      && Valid() && v.c.cl == classification && v.c.exit == exit && Seen(v, deferStack, loops)
      && cur < |blocks| && Wf(v.c, End(Now(), cur), |blocks|)
    }

    method LowerExpr(e: Expr, cur: nat, exit: nat, loops: seq<LoopFrame>, ghost v: View) returns (out: nat)
      requires Ready(v, cur, exit, loops) && TameE(e, v.inside, Labels(v.c.loops))
      modifies this
      ensures deferStack == old(deferStack) && Ready(v, out, exit, loops)
      ensures Moved(old(Now()), cur, FragE(old(Now()), cur, e, v.c), v.c, Now(), out)
      decreases SizeE(e) + FramesSize(v.c.frames), 1
    {
      hide Seen, Wf, Moved, LowerBlock, LowerEs;
      match e
      case Leaf => out := cur; MovedE(e, v.c, Now(), cur); assert log + [] == log;
      case Use(name, span) => out := LowerUse(name, span, cur, exit, loops, v);
      case Ops(_, xs) => out := LowerOperands(xs, cur, exit, loops, v);
      case BlockE(b) => out := LowerScope(b, cur, exit, loops, v);
      case If(_, _, _, _) => out := LowerIf(e, cur, exit, loops, v);
      case Match(_, _) => out := LowerMatch(e, cur, exit, loops, v);
      case While(_, _, _) => out := LowerWhile(e, cur, exit, loops, v);
      case For(_, _, _, _) => out := LowerFor(e, cur, exit, loops, v);
      case Loop(_, _) => out := LowerLoopForever(e, cur, exit, loops, v);
      case Break(_, _) => out := LowerBreak(e, cur, exit, loops, v);
      case Continue(_) => out := LowerContinue(e, cur, exit, loops, v);
      case Return(_) => out := LowerReturn(e, cur, exit, loops, v);
      case Question(_) => out := LowerQuestion(e, cur, exit, loops, v);
      case Closure(_) => out := LowerClosure(e, cur, exit, loops, v);
      case MethodCall(_, _) => out := LowerMethodCall(e, cur, exit, loops, v);
    }

    method LowerUse(name: string, span: nat, cur: nat, exit: nat, loops: seq<LoopFrame>, ghost v: View)
      returns (out: nat)
      requires Ready(v, cur, exit, loops)
      modifies this
      ensures deferStack == old(deferStack) && Ready(v, out, exit, loops)
      ensures Moved(old(Now()), cur, FragE(old(Now()), cur, Use(name, span), v.c), v.c, Now(), out)
      decreases FramesSize(v.c.frames), 0
    {
      hide Seen;
      MovedE(Use(name, span), v.c, Now(), cur);
      RecordUse(cur, LeafUse(classification, name, span));
      out := cur;
    }

    /** Operands in order. */
    method LowerOperands(xs: Exprs, cur: nat, exit: nat, loops: seq<LoopFrame>, ghost v: View) returns (out: nat)
      requires Ready(v, cur, exit, loops) && TameEs(xs, v.inside, Labels(v.c.loops))
      modifies this
      ensures deferStack == old(deferStack) && Ready(v, out, exit, loops)
      ensures Moved(old(Now()), cur, FragEs(old(Now()), cur, xs, v.c), v.c, Now(), out)
      decreases SizeEs(xs) + FramesSize(v.c.frames), 0
    {
      hide Seen, Wf, Moved, LowerE;
      ghost var s0 := Now();
      ghost var done := Frag([], End(s0, cur), s0.next, s0.ren);
      MovedNone(v.c, s0, cur);
      CatNone(done.out, done.next, done.ren, FragEs(s0, cur, xs, v.c));
      out := cur;
      var rest := xs;
      while rest.ECons?
        invariant deferStack == old(deferStack) && Ready(v, out, exit, loops) &&
            TameEs(rest, v.inside, Labels(v.c.loops))
        invariant Moved(s0, cur, done, v.c, Now(), out)
        invariant FragEs(s0, cur, xs, v.c) == Cat(done, FragEs(Now(), out, rest, v.c))
        invariant SizeEs(rest) <= SizeEs(xs)
        decreases SizeEs(rest)
      {
        ghost var s := Now();
        ghost var mid := out;
        ghost var one := FragE(s, mid, rest.head, v.c);
        out := LowerExpr(rest.head, out, exit, loops, v);
        StepMoved(s0, cur, done, v.c, s, mid, one, Now(), out);
        CatAssoc(done, one, FragEs(Now(), out, rest.tail, v.c));
        done := Cat(done, one);
        rest := rest.tail;
      }
      CatEnd(s0, cur, done, v.c, Now(), out);
    }

    // ── Scopes and cleanup ─────────────────────────────────────────

    method LowerScope(b: Block, cur: nat, exit: nat, loops: seq<LoopFrame>, ghost v: View) returns (out: nat)
      requires Ready(v, cur, exit, loops) && TameB(b, v.inside, Labels(v.c.loops))
      modifies this
      ensures deferStack == old(deferStack) && Ready(v, out, exit, loops)
      ensures Moved(old(Now()), cur, FragBlock(old(Now()), cur, b, v.c), v.c, Now(), out)
      decreases SizeB(b) + FramesSize(v.c.frames), 3
    {
      hide Ready, Seen, Wf, Moved, Blocks, Sane, Steps, LowerE, LowerChain, LowerBlock, StmtFrag, TameItems, RestOf;
      ghost var s0 := Now();
      ReadyParts(v, cur, exit, loops);
      MovedBlock(b, v.c, s0, cur);
      TameNone();
      ScopeSeen(v, deferStack, loops, []);
      ScopeWf(v.c, [], End(s0, cur), s0.next);
      var renameBase := |renameStack|;
      deferStack := deferStack + [[]];
      ghost var items: seq<Item> := [];
      ghost var done: Frag;
      var final: Expr;
      ReadyParts(v.(c := InScope(v.c, [])), cur, exit, loops);
      out, final, items, done := LowerStmts(b, cur, exit, loops, v);
      ghost var s1 := Now();
      ghost var mid := out;
      out := LowerExpr(final, out, exit, loops, v.(c := InScope(v.c, items)));
      ghost var s2 := Now();
      ReadyParts(v.(c := InScope(v.c, items)), out, exit, loops);
      ghost var mid2 := out;
      OutOfScope(s1, mid, FragE(s1, mid, final, InScope(v.c, items)), v.c, items, s2, mid2);
      AfterMoved(s1, mid, FragE(s1, mid, final, InScope(v.c, items)), v.c, s2, mid2);
      out := EmitScopeCleanup(|deferStack| - 1, out, exit, loops, false, v.c);
      AfterMoved(s2, mid2, FragChain(s2, mid2, FrameBodies(items, false), v.c), v.c, Now(), out);
      ScopePlus(s0, cur, b, v.c, done, s1, mid, final, items, s2, mid2);
      renameStack := renameStack[..renameBase];
      deferStack := deferStack[..|deferStack| - 1];
      assert deferStack == old(deferStack);
      AfterMoved(s0, cur, FragBlock(s0, cur, b, v.c), v.c, Now(), out);
      ReadyParts(v, out, exit, loops);
    }

    /** The statements of a block, in the scope just opened. */
    method LowerStmts(b: Block, cur: nat, exit: nat, loops: seq<LoopFrame>, ghost v: View)
      returns (out: nat, final: Expr, ghost items: seq<Item>, ghost done: Frag)
      requires deferStack != [] && deferStack[|deferStack| - 1] == []
      requires Ready(v.(c := InScope(v.c, [])), cur, exit, loops) && TameB(b, v.inside, Labels(v.c.loops))
      modifies this
      ensures deferStack == old(deferStack)[|old(deferStack)| - 1 := items] && TameItems(items)
      ensures Ready(v.(c := InScope(v.c, items)), out, exit, loops) && TameE(final, v.inside, Labels(v.c.loops))
      ensures Moved(old(Now()), cur, done, v.c, Now(), out) &&
          RestOf(old(Now()), cur, b, [], done, Now(), out, Done(final), items, v.c)
      ensures SizeE(final) + ItemsSize(items) < SizeB(b) && |renameStack| >= |old(renameStack)|
      decreases SizeB(b) + FramesSize(v.c.frames), 2
    {
      hide Seen, Wf, Moved, Valid, Steps, LowerE, LowerChain, StmtFrag, TameItems, RestOf;
      ghost var s0 := Now();
      done := Frag([], End(s0, cur), s0.next, s0.ren);
      ScopeWf(v.c, [], End(s0, cur), s0.next);
      MovedNone(v.c, s0, cur) by { SaneNow(); }
      RestNone(s0, cur, b, v.c);
      TameNone();
      out, items := cur, [];
      var rest := b;
      while rest.Then?
        invariant deferStack == old(deferStack)[|old(deferStack)| - 1 := items] && TameItems(items)
        invariant Ready(v.(c := InScope(v.c, items)), out, exit, loops) && TameB(rest, v.inside, Labels(v.c.loops))
        invariant Moved(s0, cur, done, v.c, Now(), out) && RestOf(s0, cur, b, [], done, Now(), out, rest, items, v.c)
        invariant SizeB(rest) + ItemsSize(items) <= SizeB(b) && |renameStack| >= |s0.ren.stack|
        decreases SizeB(rest)
      {
        ghost var s := Now();
        ghost var mid := out;
        ghost var one := StmtFrag(rest.first, InScope(v.c, items), End(s, mid), s.next, s.ren);
        RegisteredSize(rest.first, rest.rest, items);
        out := LowerStmt(rest.first, out, exit, loops, v, items);
        StepMoved(s0, cur, done, v.c, s, mid, one, Now(), out);
        RestNext(s0, cur, b, done, s, mid, rest, items, v.c, Now(), out);
        items := Registered(rest.first, items);
        done := Cat(done, one);
        rest := rest.rest;
      }
      final := rest.final;
    }

    /** Lowers the cleanup bodies that one scope has registered, last first; on
        an error path its errdefers before its defers. */
    method EmitScopeCleanup(frame: nat, cur: nat, exit: nat, loops: seq<LoopFrame>, errorPath: bool, ghost c: Ctx)
      returns (out: nat)
      requires Settled(c, cur, exit) && frame < |deferStack| && TameItems(deferStack[frame])
      modifies this
      ensures deferStack == old(deferStack) && Settled(c, out, exit)
      ensures Moved(old(Now()), cur, FragChain(old(Now()), cur, FrameBodies(old(deferStack)[frame], errorPath), c), c,
          Now(), out)
      decreases ItemsSize(deferStack[frame]), 5
    {
      hide Moved, Wf, Sane, LowerChain, Pick;
      var items := deferStack[frame];
      ghost var s0 := Now();
      out := cur;
      ghost var first: seq<Block> := [];
      ChainNone(c, s0, cur);
      if errorPath {
        out := EmitKind(items, true, out, exit, loops, c);
        first := Pick(items, true);
      }
      ghost var s1 := Now();
      ghost var mid := out;
      out := EmitKind(items, false, out, exit, loops, c);
      ChainMoved(s0, cur, first, c, s1, mid, Pick(items, false), Now(), out);
    }

    /** The bodies of one kind. */
    method EmitKind(items: seq<Item>, err: bool, cur: nat, exit: nat, loops: seq<LoopFrame>, ghost c: Ctx)
      returns (out: nat)
      requires Settled(c, cur, exit) && TameItems(items)
      modifies this
      ensures deferStack == old(deferStack) && Settled(c, out, exit)
      ensures Moved(old(Now()), cur, FragChain(old(Now()), cur, Pick(items, err), c), c, Now(), out)
      decreases ItemsSize(items), 4
    {
      hide Settled, Moved, Wf, Valid, Sane, LowerChain, Blocks, Steps;
      ghost var s0 := Now();
      out := cur;
      ghost var done: seq<Block> := [];
      SettledParts(c, cur, exit);
      ChainNone(c, s0, cur);
      var i := |items|;
      PickAll(items, err);
      while i > 0
        invariant 0 <= i <= |items| && deferStack == old(deferStack) && Settled(c, out, exit)
        invariant done + Pick(items[..i], err) == Pick(items, err)
        invariant Moved(s0, cur, FragChain(s0, cur, done, c), c, Now(), out)
      {
        i := i - 1;
        PickNext(items, i, err, done);
        if items[i].err == err {
          ghost var s := Now();
          ghost var mid := out;
          ItemSize(items, i);
          out := EmitBody(items[i].body, out, exit, loops, c);
          ChainMoved(s0, cur, done, c, s, mid, [items[i].body], Now(), out);
          done := done + [items[i].body];
        }
      }
      assert items[..0] == [] && done + [] == done;
    }

    /** One cleanup body, in a fresh block and rename frame. */
    method EmitBody(body: Block, cur: nat, exit: nat, loops: seq<LoopFrame>, ghost c: Ctx) returns (out: nat)
      requires Settled(c, cur, exit) && TameB(body, true, [])
      modifies this
      ensures deferStack == old(deferStack) && Settled(c, out, exit)
      ensures Moved(old(Now()), cur, FragChain(old(Now()), cur, [body], c), c, Now(), out)
      decreases SizeB(body), 4
    {
      hide Moved, Wf, Sane, Seen, Blocks, LowerBlock, LowerChain, Steps;
      ghost var s0 := Now();
      ghost var v := View(CleanupCtx(c), |deferStack|, |loops|, true);
      FreshBlock(s0, c, End(s0, cur));
      FreshCleanup(c, Point(s0.next, 0), s0.next + 1);
      CleanupSeen(v, deferStack, loops);
      MovedChain([body], c, s0, cur);
      BodyPlus(s0, End(s0, cur), body, c);
      var entry := NewBlock();
      AddEdge(cur, entry);
      assert End(Now(), entry) == Point(entry, 0);
      PushRenameFrame(Cu);
      ghost var s1 := Now();
      out := LowerScope(body, entry, exit, loops, v);
      AfterMoved(s1, entry, FragBlock(s1, entry, body, v.c), v.c, Now(), out);
      PopRenameFrame();
      AfterMoved(s0, cur, FragChain(s0, cur, [body], c), c, Now(), out);
    }

    /** `cur` is a block from which cleanup can go on. */
    ghost predicate Settled(c: Ctx, cur: nat, exit: nat)
      reads this
    {
      Valid() && c.cl == classification && c.exit == exit && cur < |blocks| && Wf(c, End(Now(), cur), |blocks|)
    }

    lemma SettledParts(c: Ctx, cur: nat, exit: nat)
      ensures Settled(c, cur, exit) <==>
        (Valid() && c.cl == classification && c.exit == exit && cur < |blocks| && Wf(c, End(Now(), cur), |blocks|))
      ensures Valid() ==> Sane(Now())
    {
    }

    /** Cleanup for the scopes from the innermost down to index `depth` of the stack. */
    method EmitUnwindChain(depth: nat, cur: nat, exit: nat, loops: seq<LoopFrame>, errorPath: bool, ghost v: View)
      returns (out: nat)
      requires Ready(v, cur, exit, loops) && v.base <= depth <= |deferStack|
      modifies this
      ensures deferStack == old(deferStack) && Ready(v, out, exit, loops)
      ensures Moved(old(Now()), cur, FragChain(old(Now()), cur, Bodies(v.c.frames, depth - v.base, errorPath), v.c),
          v.c, Now(), out)
      decreases FramesSize(v.c.frames), 6
    {
      hide Ready, Settled, Valid, Moved, LowerChain, FrameBodies, Bodies, Wf, Sane, Blocks, Steps, TameItems;
      ReadyParts(v, cur, exit, loops);
      ghost var s0 := Now();
      ghost var frames := v.c.frames;
      ghost var target := depth - v.base;
      ghost var done: seq<Block> := [];
      out := cur;
      SettledParts(v.c, cur, exit);
      ChainNone(v.c, s0, cur);
      var i := |deferStack|;
      assert frames[..i - v.base] == frames;
      while i > depth
        invariant v.base <= depth <= i <= |deferStack| && deferStack == old(deferStack) && Ready(v, out, exit, loops)
        invariant done + Bodies(frames[..i - v.base], target, errorPath) == Bodies(frames, target, errorPath)
        invariant Moved(s0, cur, FragChain(s0, cur, done, v.c), v.c, Now(), out)
      {
        i := i - 1;
        ghost var s := Now();
        ReadyParts(v, out, exit, loops);
        SettledParts(v.c, out, exit);
        ghost var mid := out;
        ghost var bodies := FrameBodies(deferStack[i], errorPath);
        assert deferStack[i] == frames[i - v.base] && frames[i - v.base] in frames;
        BodiesNext(frames, i - v.base, target, errorPath, done);
        FrameSize(frames, i - v.base);
        out := EmitScopeCleanup(i, out, exit, loops, errorPath, v.c);
        ChainMoved(s0, cur, done, v.c, s, mid, bodies, Now(), out);
        done := done + bodies;
        SettledParts(v.c, out, exit);
        ReadyParts(v, out, exit, loops);
      }
      BodiesEnd(frames, target, errorPath, done);
    }

    method LowerStmt(st: Stmt, cur: nat, exit: nat, loops: seq<LoopFrame>, ghost v: View, ghost items: seq<Item>)
      returns (out: nat)
      requires deferStack != [] && items == deferStack[|deferStack| - 1] && TameItems(items)
      requires Ready(v.(c := InScope(v.c, items)), cur, exit, loops) && TameS(st, v.inside, Labels(v.c.loops))
      modifies this
      ensures deferStack == old(deferStack)[|old(deferStack)| - 1 := Registered(st, items)] &&
          TameItems(Registered(st, items))
      ensures Ready(v.(c := InScope(v.c, Registered(st, items))), out, exit, loops)
      ensures Moved(old(Now()), cur, StmtFrag(st, InScope(v.c, items), End(old(Now()), cur), old(|blocks|),
          old(Now()).ren), v.c, Now(), out)
      decreases SizeS(st) + FramesSize(v.c.frames) + ItemsSize(items), 4
    {
      hide Moved, Seen, Wf, Blocks, Steps, LowerE, LowerBlock, LowerPlain, TameE, TameB;
      ghost var v1 := v.(c := InScope(v.c, items));
      ghost var s0 := Now();
      ScopeWf(v.c, items, End(s0, cur), s0.next);
      MovedStmt(st, items, v.c, s0, cur);
      out := cur;
      match st {
        case Defer(body) =>
          ghost var below := deferStack[..|deferStack| - 1];
          assert deferStack == below + [items];
          Register(Item(false, body));
          assert deferStack == below + [Push(items, Item(false, body))];
          RegisterSeen(v, below, items, Item(false, body), loops);
        case ErrDefer(body) =>
          ghost var below := deferStack[..|deferStack| - 1];
          assert deferStack == below + [items];
          Register(Item(true, body));
          assert deferStack == below + [Push(items, Item(true, body))];
          RegisterSeen(v, below, items, Item(true, body), loops);
        case LetElse(_, _, _) => out := LowerLetElse(st, cur, exit, loops, v1);
        case _ => out := LowerSimple(st, cur, exit, loops, v1);
      }
      ghost var f := StmtFrag(st, v1.c, End(s0, cur), s0.next, s0.ren);
      assert s0.log + [] == s0.log;
      AfterMoved(s0, cur, f, v.c, Now(), out);
      ScopeWf(v.c, Registered(st, items), f.out, f.next);
    }

    /** `defer` and `errdefer` only register; the body is lowered at the exits. */
    method Register(it: Item)
      requires Valid() && deferStack != []
      modifies `deferStack
      ensures Valid() && Now() == old(Now())
      ensures deferStack == old(deferStack)[|old(deferStack)| - 1 := Push(old(deferStack)[|old(deferStack)| - 1], it)]
    {
      var top := |deferStack| - 1;
      deferStack := deferStack[top := deferStack[top] + [it]];
    }

    method LowerSimple(st: Stmt, cur: nat, exit: nat, loops: seq<LoopFrame>, ghost v: View) returns (out: nat)
      requires IsPlain(st) && Ready(v, cur, exit, loops) && TameS(st, v.inside, Labels(v.c.loops))
      modifies this
      ensures deferStack == old(deferStack) && Valid()
      ensures Now() == Plus(old(Now()), FragPlain(old(Now()), cur, st, v.c)) &&
          out == FragPlain(old(Now()), cur, st, v.c).out.block
      decreases SizeS(st) + FramesSize(v.c.frames), 3
    {
      hide Moved, Seen, Wf, Valid, Steps, LowerE, Sane;
      ghost var s0 := Now();
      match st {
        case Let(pat, value) =>
          out := LowerExpr(value, cur, exit, loops, v);
          AfterMoved(s0, cur, FragE(s0, cur, value, v.c), v.c, Now(), out);
          ghost var s1 := Now();
          if AnyNameSeen(pat.names) {
            PushRenameFrame(Sh);
          }
          assert Now() == s1.(ren := ShadowIfSeen(pat.names, s1.ren)) && End(Now(), out) == End(s1, out);
          LetPlus(s0, cur, st, v.c);
          IntroducePattern(pat, out);
        case LetUninit(name) =>
          UninitPlus(s0, cur, name, v.c);
          if name in seenNames {
            PushRenameFrame(Sh);
          }
          NoteLocalIntroduced(name);
          out := cur;
        case Assign(target, value) =>
          out := LowerExpr(value, cur, exit, loops, v);
          ghost var s1 := Now();
          ghost var mid := out;
          AfterMoved(s0, cur, FragE(s0, cur, value, v.c), v.c, s1, out);
          out := LowerExpr(target, out, exit, loops, v);
          AfterMoved(s1, mid, FragE(s1, mid, target, v.c), v.c, Now(), out);
          AssignPlus(s0, cur, st, v.c);
        case ExprStmt(e) =>
          out := LowerExpr(e, cur, exit, loops, v);
          AfterMoved(s0, cur, FragE(s0, cur, e, v.c), v.c, Now(), out);
          PlainPlus(s0, cur, st, v.c);
      }
    }

    method LowerLetElse(st: Stmt, cur: nat, exit: nat, loops: seq<LoopFrame>, ghost v: View) returns (out: nat)
      requires st.LetElse? && Ready(v, cur, exit, loops) && TameS(st, v.inside, Labels(v.c.loops))
      modifies this
      ensures deferStack == old(deferStack) && Valid()
      ensures var f := StmtFrag(st, v.c, End(old(Now()), cur), old(|blocks|), old(Now()).ren);
        Now() == Plus(old(Now()), f) && out == f.out.block
      decreases SizeS(st) + FramesSize(v.c.frames), 3
    {
      hide NoteAll, Ready, Moved, Seen, Wf, Valid, Steps, LowerE, LowerBlock;
      ghost var s0 := Now();
      out := LowerExpr(st.value, cur, exit, loops, v);
      ghost var f := FragE(s0, cur, st.value, v.c);
      AfterMoved(s0, cur, f, v.c, Now(), out);
      ReadyParts(v, out, exit, loops);
      var shadows := AnyNameSeen(st.pat.names);
      NoteAllIntroduced(st.pat.names);
      assert End(Now(), out) == f.out;
      ReadyParts(v, out, exit, loops);
      var elseEntry := Fork(out, exit, loops, v);
      ghost var s1 := Now();
      var end := LowerScope(st.diverge, elseEntry, exit, loops, v);
      AfterMoved(s1, elseEntry, FragBlock(s1, elseEntry, st.diverge, v.c), v.c, Now(), end);
      ReadyParts(v, end, exit, loops);
      AsideEnd(s0, f, NoteAll(st.pat.names, f.ren), s1, FragBlock(s1, elseEntry, st.diverge, v.c), v.c, Now(), end);
      Pass(out);
      AsidePlus(s0, f, NoteAll(st.pat.names, f.ren), FragBlock(s1, elseEntry, st.diverge, v.c));
      if shadows {
        PushRenameFrame(Sh);
        NoteAllIntroduced(st.pat.names);
      }
    }

    function AnyNameSeen(names: seq<string>): bool
      reads this
    {
      exists i :: 0 <= i < |names| && names[i] in seenNames
    }

    method LowerIf(e: Expr, cur: nat, exit: nat, loops: seq<LoopFrame>, ghost v: View) returns (out: nat)
      requires e.If? && Ready(v, cur, exit, loops) && TameE(e, v.inside, Labels(v.c.loops))
      modifies this
      ensures deferStack == old(deferStack) && Ready(v, out, exit, loops)
      ensures Moved(old(Now()), cur, FragE(old(Now()), cur, e, v.c), v.c, Now(), out)
      decreases SizeE(e) + FramesSize(v.c.frames), 0
    {
      hide Ready, Moved, Seen, Wf, Valid, Steps, LowerE, LowerThen;
      ReadyParts(v, cur, exit, loops);
      ghost var s0 := Now();
      MovedE(e, v.c, s0, cur) by { SaneNow(); }
      IfPlus(s0, cur, e, v.c);
      ghost var f := FragE(s0, cur, e.cond, v.c);
      ghost var t := LowerThen(e.pat, e.thenBranch, v.c, f.next, f.ren);
      var afterCond := LowerExpr(e.cond, cur, exit, loops, v);
      AfterMoved(s0, cur, f, v.c, Now(), afterCond);
      var thenEntry := Fork(afterCond, exit, loops, v);
      ghost var s1 := Now();
      var thenExit := LowerBranch(e.pat, e.thenBranch, thenEntry, exit, loops, v);
      AfterMoved(s1, thenEntry, t, v.c, Now(), thenExit);
      Still(s1, thenEntry, t, v.c, Now(), thenExit, afterCond);
      var merge := Fork(thenExit, exit, loops, v);
      LaterWf(v.c, f.out, f.next, |blocks|);
      ReadyParts(v, merge, exit, loops);
      ReadyParts(v, afterCond, exit, loops);
      match e.elseBranch {
        case Some(other) => LowerElse(other, afterCond, merge, exit, loops, v);
        case None => AddEdge(afterCond, merge);
      }
      out := merge;
      AfterMoved(s0, cur, FragE(s0, cur, e, v.c), v.c, Now(), out);
      ReadyParts(v, out, exit, loops);
    }

    /** A fresh block and an edge to it. */
    method Fork(from: nat, exit: nat, loops: seq<LoopFrame>, ghost v: View) returns (entry: nat)
      requires Ready(v, from, exit, loops)
      modifies `blocks, `log
      ensures entry == old(|blocks|) && Ready(v, entry, exit, loops) && End(Now(), entry) == Point(entry, 0)
      ensures Now() == Write(Mint(old(Now())), Jump(End(old(Now()), from), entry, false))
      ensures forall b: nat :: b < entry ==> End(Now(), b) == End(old(Now()), b)
    {
      hide Seen, Wf, Sane, Blocks, Steps;
      FreshBlock(Now(), v.c, End(Now(), from));
      entry := NewBlock();
      AddEdge(from, entry);
    }

    /** Two fresh blocks, each with an edge to it: a loop's body and what comes after the loop. */
    method ForkBoth(from: nat, exit: nat, loops: seq<LoopFrame>, ghost v: View) returns (entry: nat, merge: nat)
      requires Ready(v, from, exit, loops)
      modifies `blocks, `log
      ensures entry == old(|blocks|) && merge == entry + 1 && Ready(v, entry, exit, loops) &&
          End(Now(), entry) == Point(entry, 0)
      ensures Now() == Write(Mint(Write(Mint(old(Now())), Jump(old(End(Now(), from)), entry, false))),
          Jump(old(End(Now(), from)), merge, false))
    {
      hide Seen, Wf, Sane, Blocks, Steps;
      ghost var q := End(Now(), from);
      ghost var n := |blocks|;
      entry := Fork(from, exit, loops, v);
      LaterWf(v.c, q, n, |blocks|);
      merge := Fork(from, exit, loops, v);
      LaterWf(v.c, Point(entry, 0), entry + 1, |blocks|);
    }

    /** `Ready`, taken apart and put together. */
    lemma ReadyParts(v: View, cur: nat, exit: nat, loops: seq<LoopFrame>)
      ensures Ready(v, cur, exit, loops) <==>
        (Valid() && v.c.cl == classification && v.c.exit == exit && Seen(v, deferStack, loops)
         && cur < |blocks| && Wf(v.c, End(Now(), cur), |blocks|))
    {
    }

    lemma SaneNow()
      requires Valid()
      ensures Sane(Now())
    {
    }

    /** An else-branch from block `from` to block `merge`. */
    method LowerElse(e: Expr, from: nat, merge: nat, exit: nat, loops: seq<LoopFrame>, ghost v: View)
      requires Ready(v, from, exit, loops) && merge < |blocks| && TameE(e, v.inside, Labels(v.c.loops))
      modifies this
      ensures deferStack == old(deferStack) && Valid()
      ensures Now() == Plus(old(Now()), BranchE(old(Now()), End(old(Now()), from), merge, e, v.c))
      decreases SizeE(e) + FramesSize(v.c.frames), 2
    {
      hide Moved, Seen, Wf, Valid, Steps, LowerE;
      ghost var s0 := Now();
      BranchPlus(s0, End(s0, from), merge, LowerE(e, v.c, Point(s0.next, 0), s0.next + 1, s0.ren));
      var entry := Fork(from, exit, loops, v);
      ghost var s1 := Now();
      var end := LowerExpr(e, entry, exit, loops, v);
      AfterMoved(s1, entry, FragE(s1, entry, e, v.c), v.c, Now(), end);
      AddEdge(end, merge);
    }

    /** A branch: the pattern's names, then the block. */
    method LowerBranch(pat: Pat, b: Block, entry: nat, exit: nat, loops: seq<LoopFrame>, ghost v: View)
      returns (out: nat)
      requires Ready(v, entry, exit, loops) && TameB(b, v.inside, Labels(v.c.loops)) &&
          End(Now(), entry) == Point(entry, 0)
      requires |blocks| == entry + 1
      modifies this
      ensures deferStack == old(deferStack) && Ready(v, out, exit, loops)
      ensures Moved(old(Now()), entry, LowerThen(pat, b, v.c, entry, old(Now()).ren), v.c, Now(), out)
      decreases SizeB(b) + FramesSize(v.c.frames), 4
    {
      hide Moved, Seen, Wf, LowerBlock;
      ghost var s0 := Now();
      MovedDefs(pat, v.c, s0, entry);
      IntroducePattern(pat, entry);
      ghost var s1 := Now();
      AfterMoved(s0, entry, FragDefs(s0, entry, pat), v.c, s1, entry);
      out := LowerScope(b, entry, exit, loops, v);
      MovedCat(s0, entry, FragDefs(s0, entry, pat), v.c, s1, entry, FragBlock(s1, entry, b, v.c), Now(), out);
    }

    method LowerMatch(e: Expr, cur: nat, exit: nat, loops: seq<LoopFrame>, ghost v: View) returns (out: nat)
      requires e.Match? && Ready(v, cur, exit, loops) && TameE(e, v.inside, Labels(v.c.loops))
      modifies this
      ensures deferStack == old(deferStack) && Ready(v, out, exit, loops)
      ensures Moved(old(Now()), cur, FragE(old(Now()), cur, e, v.c), v.c, Now(), out)
      decreases SizeE(e) + FramesSize(v.c.frames), 0
    {
      hide Moved, Seen, Wf, Valid, Steps, LowerE, LowerArm, LowerArms, ArmsOf;
      ghost var s0 := Now();
      MovedE(e, v.c, s0, cur) by { SaneNow(); }
      var afterScrutinee := LowerExpr(e.scrutinee, cur, exit, loops, v);
      ghost var f := FragE(s0, cur, e.scrutinee, v.c);
      AfterMoved(s0, cur, f, v.c, Now(), afterScrutinee);
      MatchPlus(s0, cur, e, v.c);
      var merge := NewBlock();
      assert End(Now(), afterScrutinee) == f.out;
      LaterWf(v.c, f.out, f.next, |blocks|);
      if e.arms.NoArm? {
        AddEdge(afterScrutinee, merge);
      } else {
        ghost var s1 := Now();
        ghost var done := Frag([], Point(merge, 0), s1.next, s1.ren);
        assert s1.log + [] == s1.log;
        ArmsNone(e.arms, v.c, f.out, merge, s1);
        var arms := e.arms;
        while arms.Arm?
          invariant deferStack == old(deferStack) && Ready(v, afterScrutinee, exit, loops) && merge < |blocks|
          invariant End(Now(), afterScrutinee) == f.out && Now() == Plus(s1, done) && done.out == Point(merge, 0)
          invariant TameArms(arms, v.inside, Labels(v.c.loops)) && SizeArms(arms) <= SizeArms(e.arms)
          invariant ArmsOf(e.arms, v.c, f.out, merge, s1, done, arms)
          decreases SizeArms(arms)
        {
          ghost var s := Now();
          ghost var one := ArmFrag(arms, v.c, f.out, merge, s.next, s.ren);
          LowerOneArm(arms, afterScrutinee, merge, exit, loops, v);
          ArmsNext(e.arms, v.c, f.out, merge, s1, done, arms);
          done := Cat(done, one);
          arms := arms.others;
        }
        ArmsEnd(e.arms, v.c, f.out, merge, s1, done, arms);
      }
      out := merge;
      AfterMoved(s0, cur, FragE(s0, cur, e, v.c), v.c, Now(), out);
    }

    /** The first of `arms`, from block `from` to block `merge`. */
    method LowerOneArm(arms: Arms, from: nat, merge: nat, exit: nat, loops: seq<LoopFrame>, ghost v: View)
      requires arms.Arm? && Ready(v, from, exit, loops) && merge < |blocks| &&
          TameArms(arms, v.inside, Labels(v.c.loops))
      modifies this
      ensures deferStack == old(deferStack) && Ready(v, from, exit, loops) && End(Now(), from) == old(End(Now(), from))
      ensures Now() == Plus(old(Now()), ArmFrag(arms, v.c, old(End(Now(), from)), merge, old(|blocks|), old(Now()).ren))
      decreases SizeArms(arms) + FramesSize(v.c.frames), 1
    {
      hide Moved, Seen, Wf, Valid, Steps, LowerE, LowerArm;
      ghost var s0 := Now();
      ghost var a := LowerArm(arms.pat, arms.guard, arms.body, v.c, s0.next, s0.ren);
      BranchPlus(s0, End(s0, from), merge, a);
      var entry := Fork(from, exit, loops, v);
      ghost var s1 := Now();
      var end := LowerArmBody(arms.pat, arms.guard, arms.body, entry, exit, loops, v);
      AfterMoved(s1, entry, a, v.c, Now(), end);
      Still(s1, entry, a, v.c, Now(), end, from);
      PopRenameFrame();
      assert End(Now(), end) == a.out && End(Now(), from) == End(s0, from);
      AddEdge(end, merge);
      LaterWf(v.c, End(s0, from), s0.next, |blocks|);
    }

    /** An arm's names, in a rename frame of their own, its guard and its body. */
    method LowerArmBody(pat: Pat, guard: Expr, body: Expr, entry: nat, exit: nat, loops: seq<LoopFrame>, ghost v: View)
      returns (out: nat)
      requires Ready(v, entry, exit, loops) && End(Now(), entry) == Point(entry, 0) && |blocks| == entry + 1
      requires TameE(guard, v.inside, Labels(v.c.loops)) && TameE(body, v.inside, Labels(v.c.loops))
      modifies this
      ensures deferStack == old(deferStack) && Ready(v, out, exit, loops) && |renameStack| == |old(renameStack)| + 1
      ensures Moved(old(Now()), entry, LowerArm(pat, guard, body, v.c, entry, old(Now()).ren), v.c, Now(), out)
      decreases SizeE(guard) + SizeE(body) + FramesSize(v.c.frames), 2
    {
      hide Moved, Seen, Wf, Valid, Steps, LowerE, Sane;
      ghost var s0 := Now();
      PushRenameFrame(InArm);
      ghost var s1 := Now();
      assert End(s1, entry) == Point(entry, 0);
      MovedDefs(pat, v.c, s1, entry) by { SaneNow(); }
      IntroducePattern(pat, entry);
      ghost var s2 := Now();
      AfterMoved(s1, entry, FragDefs(s1, entry, pat), v.c, s2, entry);
      out := LowerExpr(guard, entry, exit, loops, v);
      ghost var s3 := Now();
      ghost var mid := out;
      out := LowerExpr(body, out, exit, loops, v);
      ArmMoved(s0, entry, pat, guard, body, v.c, s2, s3, mid, Now(), out);
    }

    // ── Loops ──────────────────────────────────────────────────────

    /** A loop's body, from block `entry`, and the edge back to the header. */
    method LowerLoopBody(b: Block, lbl: Label, entry: nat, header: nat, merge: nat, exit: nat, loops: seq<LoopFrame>,
            ghost v: View)
      requires Ready(v, entry, exit, loops) && header < |blocks| && merge < |blocks| && entry != merge
      requires TameB(b, v.inside, Labels(v.c.loops) + [lbl])
      modifies this
      ensures deferStack == old(deferStack) && Valid()
      ensures var g := FragBlock(old(Now()), entry, b, InLoop(v.c, lbl, merge, header));
        Now() == Write(Write(Plus(old(Now()), g), Jump(g.out, header, true)), LoopMark(Point(header, 0), g.next, merge))
      decreases SizeB(b) + FramesSize(v.c.frames), 4
    {
      hide Moved, Seen, Wf, Valid, Steps, LowerBlock;
      ghost var s0 := Now();
      ghost var v1 := v.(c := InLoop(v.c, lbl, merge, header));
      LoopSeen(v, deferStack, loops, lbl, merge, header);
      InLoopStillWf(v.c, lbl, merge, header, End(s0, entry), s0.next);
      var newLoops := loops + [LoopFrame(lbl, merge, header, |deferStack|)];
      var bodyExit := LowerScope(b, entry, exit, newLoops, v1);
      AfterMoved(s0, entry, FragBlock(s0, entry, b, v1.c), v1.c, Now(), bodyExit);
      AddEdge(bodyExit, header, true);
      Mark(LoopMark(Point(header, 0), |blocks|, merge));
    }

    method LowerWhile(e: Expr, cur: nat, exit: nat, loops: seq<LoopFrame>, ghost v: View) returns (out: nat)
      requires e.While? && Ready(v, cur, exit, loops) && TameE(e, v.inside, Labels(v.c.loops))
      modifies this
      ensures deferStack == old(deferStack) && Ready(v, out, exit, loops)
      ensures Moved(old(Now()), cur, FragE(old(Now()), cur, e, v.c), v.c, Now(), out)
      decreases SizeE(e) + FramesSize(v.c.frames), 0
    {
      hide Ready, Moved, Seen, Wf, Valid, Steps, LowerE, LowerBlock, TameE, TameB;
      ghost var s0 := Now();
      ReadyParts(v, cur, exit, loops);
      MovedE(e, v.c, s0, cur) by { SaneNow(); }
      WhilePlus(s0, cur, e, v.c);
      TameWhile(e, v.inside, Labels(v.c.loops));
      var header := Fork(cur, exit, loops, v);
      ghost var s1 := Now();
      var afterCond := LowerExpr(e.cond, header, exit, loops, v);
      ghost var f := FragE(s1, header, e.cond, v.c);
      AfterMoved(s1, header, f, v.c, Now(), afterCond);
      var bodyEntry, merge := ForkBoth(afterCond, exit, loops, v);
      LowerLoopBody(e.body, e.lbl, bodyEntry, header, merge, exit, loops, v);
      out := merge;
      AfterMoved(s0, cur, FragE(s0, cur, e, v.c), v.c, Now(), out);
      ReadyParts(v, out, exit, loops);
    }

    method LowerFor(e: Expr, cur: nat, exit: nat, loops: seq<LoopFrame>, ghost v: View) returns (out: nat)
      requires e.For? && Ready(v, cur, exit, loops) && TameE(e, v.inside, Labels(v.c.loops))
      modifies this
      ensures deferStack == old(deferStack) && Ready(v, out, exit, loops)
      ensures Moved(old(Now()), cur, FragE(old(Now()), cur, e, v.c), v.c, Now(), out)
      decreases SizeE(e) + FramesSize(v.c.frames), 0
    {
      hide Ready, Moved, Seen, Wf, Valid, Steps, LowerE, LowerLoop;
      ghost var s0 := Now();
      ReadyParts(v, cur, exit, loops);
      MovedE(e, v.c, s0, cur) by { SaneNow(); }
      TameFor(e, v.inside, Labels(v.c.loops));
      var afterIter := LowerExpr(e.iterable, cur, exit, loops, v);
      AfterMoved(s0, cur, FragE(s0, cur, e.iterable, v.c), v.c, Now(), afterIter);
      ForE(s0, cur, e, v.c);
      out := LowerForLoop(e, afterIter, exit, loops, v);
      AfterMoved(s0, cur, FragE(s0, cur, e, v.c), v.c, Now(), out);
      ReadyParts(v, out, exit, loops);
    }

    /** The loop of a `for`, once its iterable has been evaluated. */
    method LowerForLoop(e: Expr, cur: nat, exit: nat, loops: seq<LoopFrame>, ghost v: View) returns (out: nat)
      requires e.For? && Ready(v, cur, exit, loops) && TameB(e.body, v.inside, Labels(v.c.loops) + [e.lbl])
      modifies this
      ensures deferStack == old(deferStack) && Valid() && v.c.exit == exit && v.c.cl == classification &&
          Seen(v, deferStack, loops)
      ensures var l := FragFor(old(Now()), old(End(Now(), cur)), e, v.c);
          Now() == Plus(old(Now()), l) && out == l.out.block
      decreases SizeB(e.body) + FramesSize(v.c.frames), 5
    {
      hide Ready, Moved, Seen, Wf, Valid, Steps, LowerLoop, LowerBlock;
      ghost var s0 := Now();
      ReadyParts(v, cur, exit, loops);
      ForPlus(s0, End(s0, cur), e, v.c);
      var header := Fork(cur, exit, loops, v);
      var bodyEntry, merge := ForkBoth(header, exit, loops, v);
      ReadyParts(v, bodyEntry, exit, loops);
      PushRenameFrame(InFor);
      ghost var s2 := Now();
      assert End(s2, bodyEntry) == Point(bodyEntry, 0);
      MovedDefs(e.pat, v.c, s2, bodyEntry) by { SaneNow(); }
      IntroducePattern(e.pat, bodyEntry);
      ghost var s3 := Now();
      AfterMoved(s2, bodyEntry, FragDefs(s2, bodyEntry, e.pat), v.c, s3, bodyEntry);
      ReadyParts(v, bodyEntry, exit, loops);
      LowerLoopBody(e.body, e.lbl, bodyEntry, header, merge, exit, loops, v);
      PopRenameFrame();
      out := merge;
    }

    method LowerLoopForever(e: Expr, cur: nat, exit: nat, loops: seq<LoopFrame>, ghost v: View) returns (out: nat)
      requires e.Loop? && Ready(v, cur, exit, loops) && TameE(e, v.inside, Labels(v.c.loops))
      modifies this
      ensures deferStack == old(deferStack) && Ready(v, out, exit, loops)
      ensures Moved(old(Now()), cur, FragE(old(Now()), cur, e, v.c), v.c, Now(), out)
      decreases SizeE(e) + FramesSize(v.c.frames), 0
    {
      hide Moved, Seen, Wf, Valid, Steps, LowerE, LowerBlock, TameB;
      ghost var s0 := Now();
      MovedE(e, v.c, s0, cur) by { SaneNow(); }
      LoopForeverPlus(s0, cur, e, v.c);
      var header := Fork(cur, exit, loops, v);
      var merge := NewBlock();
      assert End(Now(), header) == Point(header, 0);
      LaterWf(v.c, Point(header, 0), header + 1, |blocks|);
      LowerLoopBody(e.body, e.lbl, header, header, merge, exit, loops, v);
      out := merge;
      AfterMoved(s0, cur, FragE(s0, cur, e, v.c), v.c, Now(), out);
    }

    // ── Exits ──────────────────────────────────────────────────────

    /** The cleanup and the edge of a `break` or `continue`, if its loop is known. */
    method LowerJump(o: Outcome, cur: nat, exit: nat, loops: seq<LoopFrame>, ghost v: View)
      requires (o.Brk? || o.Cont?) && Ready(v, cur, exit, loops) && (v.inside ==> Known(Labels(v.c.loops), o.lbl))
      modifies this
      ensures deferStack == old(deferStack) && Valid()
      ensures Mint(Now()) == Plus(old(Now()),
          LowerExit(Frag([], old(End(Now(), cur)), old(|blocks|), old(Now()).ren), o, v.c))
      decreases FramesSize(v.c.frames), 7
    {
      hide Moved, Wf, Valid, Steps, LowerChain, Bodies, TameItems;
      ghost var s0 := Now();
      SameLoop(v, deferStack, loops, o.lbl);
      ExitPlus(s0, cur, o, v.c);
      KnownTarget(v.c, o, End(s0, cur), s0.next);
      match Resolve(loops, o.lbl)
      case None =>
      case Some(i) =>
        var frame := loops[i];
        var end := EmitUnwindChain(frame.depth, cur, exit, loops, false, v);
        ghost var t := TargetOf(v.c, o).value;
        AfterMoved(s0, cur, FragChain(s0, cur, t.bodies, v.c), v.c, Now(), end);
        AddEdge(end, if o.Brk? then frame.brk else frame.cont, o.Cont?);
    }

    method LowerBreak(e: Expr, cur: nat, exit: nat, loops: seq<LoopFrame>, ghost v: View) returns (out: nat)
      requires e.Break? && Ready(v, cur, exit, loops) && TameE(e, v.inside, Labels(v.c.loops))
      modifies this
      ensures deferStack == old(deferStack) && Ready(v, out, exit, loops)
      ensures Moved(old(Now()), cur, FragE(old(Now()), cur, e, v.c), v.c, Now(), out)
      decreases SizeE(e) + FramesSize(v.c.frames), 0
    {
      hide Moved, Seen, Wf, Valid, Steps, LowerE, LowerExit;
      ghost var s0 := Now();
      MovedE(e, v.c, s0, cur) by { SaneNow(); }
      var end := LowerExpr(e.value, cur, exit, loops, v);
      ghost var f := FragE(s0, cur, e.value, v.c);
      AfterMoved(s0, cur, f, v.c, Now(), end);
      ExitAfter(s0, cur, f, Brk(e.lbl), v.c);
      LeavingPlus(s0, cur, e, v.c);
      LowerJump(Brk(e.lbl), end, exit, loops, v);
      out := NewBlock();
      AfterMoved(s0, cur, FragE(s0, cur, e, v.c), v.c, Now(), out);
    }

    method LowerContinue(e: Expr, cur: nat, exit: nat, loops: seq<LoopFrame>, ghost v: View) returns (out: nat)
      requires e.Continue? && Ready(v, cur, exit, loops) && TameE(e, v.inside, Labels(v.c.loops))
      modifies this
      ensures deferStack == old(deferStack) && Ready(v, out, exit, loops)
      ensures Moved(old(Now()), cur, FragE(old(Now()), cur, e, v.c), v.c, Now(), out)
      decreases SizeE(e) + FramesSize(v.c.frames), 0
    {
      hide Moved, Seen, Wf, Valid, Steps, LowerExit;
      ghost var s0 := Now();
      MovedE(e, v.c, s0, cur) by { SaneNow(); }
      LeavingPlus(s0, cur, e, v.c);
      LowerJump(Cont(e.lbl), cur, exit, loops, v);
      out := NewBlock();
      AfterMoved(s0, cur, FragE(s0, cur, e, v.c), v.c, Now(), out);
    }

    method LowerReturn(e: Expr, cur: nat, exit: nat, loops: seq<LoopFrame>, ghost v: View) returns (out: nat)
      requires e.Return? && Ready(v, cur, exit, loops) && TameE(e, v.inside, Labels(v.c.loops))
      modifies this
      ensures deferStack == old(deferStack) && Ready(v, out, exit, loops)
      ensures Moved(old(Now()), cur, FragE(old(Now()), cur, e, v.c), v.c, Now(), out)
      decreases SizeE(e) + FramesSize(v.c.frames), 0
    {
      hide Moved, Seen, Wf, Valid, Steps, LowerE, LowerExit, LowerChain, Bodies;
      ghost var s0 := Now();
      MovedE(e, v.c, s0, cur) by { SaneNow(); }
      OwnScopes(v, deferStack, loops);
      var end := LowerExpr(e.value, cur, exit, loops, v);
      ghost var f := FragE(s0, cur, e.value, v.c);
      ghost var s1 := Now();
      ghost var mid := end;
      AfterMoved(s0, cur, f, v.c, s1, end);
      ExitAfter(s0, cur, f, Ret, v.c);
      LeavingPlus(s0, cur, e, v.c);
      ExitPlus(s1, end, Ret, v.c);
      KnownTarget(v.c, Ret, f.out, s1.next);
      end := EmitUnwindChain(0, end, exit, loops, true, v);
      AfterMoved(s1, mid, FragChain(s1, mid, Bodies(v.c.frames, 0, true), v.c), v.c, Now(), end);
      AddEdge(end, exit);
      out := NewBlock();
      AfterMoved(s0, cur, FragE(s0, cur, e, v.c), v.c, Now(), out);
    }

    method LowerQuestion(e: Expr, cur: nat, exit: nat, loops: seq<LoopFrame>, ghost v: View) returns (out: nat)
      requires e.Question? && Ready(v, cur, exit, loops) && TameE(e, v.inside, Labels(v.c.loops))
      modifies this
      ensures deferStack == old(deferStack) && Ready(v, out, exit, loops)
      ensures Moved(old(Now()), cur, FragE(old(Now()), cur, e, v.c), v.c, Now(), out)
      decreases SizeE(e) + FramesSize(v.c.frames), 0
    {
      hide Moved, Seen, Wf, Valid, Steps, LowerE, LowerChain, Bodies;
      ghost var s0 := Now();
      MovedE(e, v.c, s0, cur) by { SaneNow(); }
      OwnScopes(v, deferStack, loops);
      var after := LowerExpr(e.inner, cur, exit, loops, v);
      ghost var f := FragE(s0, cur, e.inner, v.c);
      ghost var s1 := Now();
      AfterMoved(s0, cur, f, v.c, s1, after);
      ghost var g := FragChain(s1, after, Bodies(v.c.frames, 0, true), v.c);
      QuestionPlus(s0, cur, e, v.c);
      KnownTarget(v.c, Ret, f.out, s1.next);
      ChainElsewhere(Bodies(v.c.frames, 0, true), v.c, s1, after) by { SaneNow(); }
      var errTail := EmitUnwindChain(0, after, exit, loops, true, v);
      AfterMoved(s1, after, g, v.c, Now(), errTail);
      AddEdge(errTail, exit);
      assert End(Now(), after) == f.out;
      out := NewBlock();
      assert End(Now(), after) == f.out;
      AddEdge(after, out);
      AfterMoved(s0, cur, FragE(s0, cur, e, v.c), v.c, Now(), out);
    }

    // ── Side branches ──────────────────────────────────────────────

    method LowerClosure(e: Expr, cur: nat, exit: nat, loops: seq<LoopFrame>, ghost v: View) returns (out: nat)
      requires e.Closure? && Ready(v, cur, exit, loops) && TameE(e, v.inside, Labels(v.c.loops))
      modifies this
      ensures deferStack == old(deferStack) && Ready(v, out, exit, loops)
      ensures Moved(old(Now()), cur, FragE(old(Now()), cur, e, v.c), v.c, Now(), out)
      decreases SizeE(e) + FramesSize(v.c.frames), 0
    {
      hide Moved, Seen, Wf, Valid, Steps, LowerE, LeavesE;
      ghost var s0 := Now();
      MovedE(e, v.c, s0, cur) by { SaneNow(); }
      ClosurePlus(s0, cur, e, v.c);
      var side, after := ForkSide(cur, exit, loops, v);
      ghost var s1 := Now();
      var end := LowerExpr(e.code, side, exit, loops, v);
      AfterMoved(s1, side, FragE(s1, side, e.code, v.c), v.c, Now(), end);
      Mark(SinkMark(Point(side, 0), side + 2, |blocks|, v.c.inSink, LeavesE(e.code, Labels(v.c.loops)) == {}));
      out := after;
      AfterMoved(s0, cur, FragE(s0, cur, e, v.c), v.c, Now(), out);
    }

    /** A side block and the block behind it, both reached from `from`. */
    method ForkSide(from: nat, exit: nat, loops: seq<LoopFrame>, ghost v: View) returns (side: nat, after: nat)
      requires Ready(v, from, exit, loops)
      modifies `blocks, `log
      ensures side == old(|blocks|) && after == side + 1 && Ready(v, side, exit, loops) &&
          End(Now(), side) == Point(side, 0)
      ensures Now() == Write(Write(Mint(Mint(old(Now()))), Jump(old(End(Now(), from)), side, false)),
          Jump(old(End(Now(), from)), after, false))
    {
      hide Seen, Wf, Sane, Blocks, Steps;
      FreshBlock(Now(), v.c, End(Now(), from));
      side := NewBlock();
      after := NewBlock();
      AddEdge(from, side);
      AddEdge(from, after);
      LaterWf(v.c, Point(side, 0), side + 1, |blocks|);
    }

    /** The receiver, the arguments that are no sink arguments, then a side
        block for those that are. */
    method LowerMethodCall(e: Expr, cur: nat, exit: nat, loops: seq<LoopFrame>, ghost v: View) returns (out: nat)
      requires e.MethodCall? && Ready(v, cur, exit, loops) && TameE(e, v.inside, Labels(v.c.loops))
      modifies this
      ensures deferStack == old(deferStack) && Ready(v, out, exit, loops)
      ensures Moved(old(Now()), cur, FragE(old(Now()), cur, e, v.c), v.c, Now(), out)
      decreases SizeE(e) + FramesSize(v.c.frames), 0
    {
      hide Ready, Moved, Seen, Wf, Valid, Steps, LowerE, LowerArgs, LowerSinks, LeavesSinks, SinkFrag;
      ghost var s0 := Now();
      ReadyParts(v, cur, exit, loops);
      MovedE(e, v.c, s0, cur) by { SaneNow(); }
      var end := LowerExpr(e.receiver, cur, exit, loops, v);
      ghost var f := FragE(s0, cur, e.receiver, v.c);
      AfterMoved(s0, cur, f, v.c, Now(), end);
      ghost var s1 := Now();
      ghost var mid := end;
      var sinks: seq<Expr>;
      end, sinks := LowerPlainArgs(e.actuals, end, exit, loops, v);
      ghost var g := FragArgs(s1, mid, e.actuals, v.c);
      AfterMoved(s1, mid, g, v.c, Now(), end);
      CallPlus(s0, cur, e, v.c);
      if sinks == [] {
        out := end;
      } else {
        SinkSizes(e.actuals, v.c.cl);
        SinksTame(e.actuals, v.c.cl, v.inside, Labels(v.c.loops));
        out := LowerSide(sinks, SizeArgs(e.actuals), LeavesSinks(e.actuals, v.c.cl, Labels(v.c.loops)) == {}, end, exit,
            loops, v);
      }
      AfterMoved(s0, cur, FragE(s0, cur, e, v.c), v.c, Now(), out);
      ReadyParts(v, out, exit, loops);
    }

    /** The side branch for sink arguments. */
    method LowerSide(sinks: seq<Expr>, ghost bound: nat, ghost closed: bool, from: nat, exit: nat,
            loops: seq<LoopFrame>, ghost v: View) returns (out: nat)
      requires Ready(v, from, exit, loops)
      requires forall x :: x in sinks ==> SizeE(x) < bound && TameE(x, v.inside, Labels(v.c.loops))
      modifies this
      ensures deferStack == old(deferStack) && Valid()
      ensures var h := FragSinks(old(Now()), old(End(Now(), from)), sinks, closed, v.c);
          Now() == Plus(old(Now()), h) && out == h.out.block
      decreases bound + FramesSize(v.c.frames), 1
    {
      hide Ready, Moved, Seen, Wf, Valid, Steps, LowerE, SinkFrag;
      ghost var s0 := Now();
      ghost var h := SinkFrag(sinks, v.c.(inSink := true), Point(s0.next, 0), s0.next + 2, s0.ren);
      SidePlus(s0, End(s0, from), h, v.c.inSink, closed);
      var side, after := ForkSide(from, exit, loops, v);
      LowerSinkArgs(sinks, bound, side, exit, loops, v);
      Mark(SinkMark(Point(side, 0), side + 2, |blocks|, v.c.inSink, closed));
      out := after;
    }

    method LowerPlainArgs(args: Args, cur: nat, exit: nat, loops: seq<LoopFrame>, ghost v: View)
      returns (out: nat, sinks: seq<Expr>)
      requires Ready(v, cur, exit, loops) && TameArgs(args, v.inside, Labels(v.c.loops))
      modifies this
      ensures deferStack == old(deferStack) && Ready(v, out, exit, loops) && sinks == SinkExprs(args, v.c.cl)
      ensures Moved(old(Now()), cur, FragArgs(old(Now()), cur, args, v.c), v.c, Now(), out)
      decreases SizeArgs(args) + FramesSize(v.c.frames), 1
    {
      hide Moved, Seen, Wf, Valid, Steps, LowerE;
      ghost var s0 := Now();
      ghost var done := Frag([], End(s0, cur), s0.next, s0.ren);
      MovedNone(v.c, s0, cur) by { SaneNow(); }
      CatNone(done.out, done.next, done.ren, FragArgs(s0, cur, args, v.c));
      out, sinks := cur, [];
      assert [] + SinkExprs(args, v.c.cl) == SinkExprs(args, v.c.cl);
      var rest := args;
      while rest.ACons?
        invariant deferStack == old(deferStack) && Ready(v, out, exit, loops) &&
            TameArgs(rest, v.inside, Labels(v.c.loops))
        invariant Moved(s0, cur, done, v.c, Now(), out) && sinks + SinkExprs(rest, v.c.cl) == SinkExprs(args, v.c.cl)
        invariant FragArgs(s0, cur, args, v.c) == Cat(done, FragArgs(Now(), out, rest, v.c))
        invariant SizeArgs(rest) <= SizeArgs(args)
        decreases SizeArgs(rest)
      {
        if rest.span in classification.sinks {
          assert (sinks + [rest.value]) + SinkExprs(rest.tail, v.c.cl) ==
              sinks + ([rest.value] + SinkExprs(rest.tail, v.c.cl));
          sinks := sinks + [rest.value];
        } else {
          ghost var s := Now();
          ghost var mid := out;
          ghost var one := FragE(s, mid, rest.value, v.c);
          out := LowerExpr(rest.value, out, exit, loops, v);
          StepMoved(s0, cur, done, v.c, s, mid, one, Now(), out);
          CatAssoc(done, one, FragArgs(Now(), out, rest.tail, v.c));
          done := Cat(done, one);
          assert [] + SinkExprs(rest.tail, v.c.cl) == SinkExprs(rest.tail, v.c.cl);
        }
        rest := rest.tail;
      }
      CatEnd(s0, cur, done, v.c, Now(), out);
      assert sinks + [] == sinks;
    }

    /** Each sink argument from the current end of the side block. */
    method LowerSinkArgs(sinks: seq<Expr>, ghost bound: nat, side: nat, exit: nat, loops: seq<LoopFrame>, ghost v: View)
      requires Ready(v, side, exit, loops)
      requires forall x :: x in sinks ==> SizeE(x) < bound && TameE(x, v.inside, Labels(v.c.loops))
      modifies this
      ensures deferStack == old(deferStack) && Valid()
      ensures |blocks| >= old(|blocks|)
      ensures Now() == Plus(old(Now()),
          SinkFrag(sinks, v.c.(inSink := true), old(End(Now(), side)), old(|blocks|), old(Now()).ren))
      decreases bound + FramesSize(v.c.frames), 0
    {
      hide Moved, Seen, Wf, Valid, Steps, LowerE;
      ghost var s0 := Now();
      ghost var c1 := v.c.(inSink := true);
      ghost var v1 := v.(c := c1);
      SinkView(v, deferStack, loops, End(s0, side), s0.next);
      ghost var done := Frag([], End(s0, side), s0.next, s0.ren);
      assert s0.log + [] == s0.log;
      SinkNone(sinks, c1, s0, side);
      for i := 0 to |sinks|
        invariant deferStack == old(deferStack) && Ready(v1, side, exit, loops) && Now() == Plus(s0, done)
        invariant |blocks| >= s0.next
        invariant SinksOf(sinks, c1, s0, side, done, Now(), sinks[i..])
      {
        ghost var s := Now();
        ghost var one := FragE(s, side, sinks[i], c1);
        assert sinks[i..][0] == sinks[i] && sinks[i..][1..] == sinks[i + 1..];
        var end := LowerExpr(sinks[i], side, exit, loops, v1);
        AfterMoved(s, side, one, c1, Now(), end);
        SameBlockWf(c1, End(s, side), End(Now(), side), s.next, |blocks|);
        SinkNext(sinks, c1, s0, side, done, s, sinks[i..]);
        done := Cat(done, one);
      }
      assert sinks[|sinks|..] == [];
    }
  }
}
