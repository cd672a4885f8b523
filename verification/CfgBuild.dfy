/** The graph of a function body, as `build_cfg_with_classification` returns it. */
module CfgBuild {
  import opened CfgSyntax
  import opened CfgLowering
  import opened CfgGraph
  import opened CfgTame
  import opened CfgBuilder
  import opened CfgPlain
  import opened CfgMeaning
  import opened CfgOccurrences
  import opened CfgUses

  datatype Cfg = Cfg(blocks: seq<BasicBlock>, entry: nat, exit: nat)

  lemma {:induction false} Bare(log: seq<Event>, b: nat)
    requires forall ev :: ev in log ==> ev.src.block != b
    ensures Succs(log, b) == [] && BlockUses(log, b) == []
  {
    if log != [] {
      Bare(log[..|log| - 1], b);
    }
  }

  /** Builds the graph. Each use in a block is an identifier of the body with the kind, origin
      and place that the classification has for it, or the marker of a name that a pattern
      introduces, and none outside errdefer bodies is missing. For plain bodies in which no
      use follows an edge out of its block, the uses along its walks from entry to exit are
      those of the finishing runs. */
  method BuildCfg(body: Block, classification: Classification, params: seq<string>) returns (g: Cfg)
    requires TameB(body, false, [])
    ensures var f := LowerBody(body, classification, params); g == Cfg(Blocks(f.log, f.next), 0, 1)
    ensures |g.blocks| >= 2 && g.blocks[1].successors == [] && g.blocks[1].uses == []
    ensures forall b, i :: InBlock(g.blocks, b, i) ==> IsOccurrence(g.blocks[b].uses[i], body, classification)
    ensures forall o :: o in OccB(body, false) ==> InSomeBlock(g.blocks, o, classification)
    ensures PlainB(body, true, classification) && Sealed(LowerBody(body, classification, params).log) ==>
              forall tr :: SomeRun(classification, body, tr) <==> SomeBlockWalk(g.blocks, tr)
  {
    hide IsOccurrence, InSomeBlock, Says, OccB;
    hide Moved, LowerBlock, BlockUses, Succs, TameB, PlainB, Sealed, SomeRun, SomeBlockWalk;
    var builder := new Builder(classification, params);
    var entry := builder.NewBlock();
    var exit := builder.NewBlock();
    ghost var v := View(Ctx(classification, exit, [], [], false), 0, 0, false);
    ghost var s0 := builder.Now();
    var cur := builder.LowerScope(body, entry, exit, [], v);
    AfterMoved(s0, entry, FragBlock(s0, entry, body, v.c), v.c, builder.Now(), cur);
    builder.AddEdge(cur, exit);
    ghost var f := FragBlock(s0, entry, body, v.c);
    assert [] + f.log == f.log;
    g := Cfg(builder.blocks, entry, exit);
    ExitBare(body, classification, params);
    UsesAreOccurrences(body, classification, params);
    Bare(LowerBody(body, classification, params).log, exit);
    if PlainB(body, true, classification) && Sealed(LowerBody(body, classification, params).log) {
      forall tr
        ensures SomeRun(classification, body, tr) <==> SomeBlockWalk(g.blocks, tr)
      {
        GraphMeaning(body, classification, params, tr);
      }
    }
  }
}
