/** Paths through the positions of a lowered graph and the uses along them. */
module CfgPaths {
  import opened Options
  import opened CfgSyntax
  import opened CfgLowering
  import opened CfgRuns

  function Target1(ev: Event): Point
    requires ev.Step? || ev.Jump?
  {
    if ev.Step? then Point(ev.src.block, ev.src.off + 1) else Point(ev.dst, 0)
  }

  ghost predicate Moves(G: seq<Event>, ev: Event, a: Point) {
    ev in G && (ev.Step? || ev.Jump?) && ev.src == a
  }

  /** `es` leads from `a` to `z` by uses and edges of `G`. */
  ghost predicate PathTo(G: seq<Event>, a: Point, es: seq<Event>, z: Point)
    decreases |es|
  {
    if es == [] then a == z
    else Moves(G, es[0], a) && PathTo(G, Target1(es[0]), es[1..], z)
  }

  /** The uses on a path, names erased. */
  function Labels1(es: seq<Event>): seq<UseSite> {
    if es == [] then []
    else (if es[0].Step? && es[0].use.Some? then [Erase(es[0].use.value)] else []) + Labels1(es[1..])
  }

  /** Some path from `a` to `z` has exactly the uses `tr`. */
  ghost predicate Reach(G: seq<Event>, a: Point, tr: seq<UseSite>, z: Point) {
    exists es :: PathTo(G, a, es, z) && Labels1(es) == tr
  }

  lemma JumpReach(G: seq<Event>, a: Point, d: nat, back: bool, tr: seq<UseSite>, z: Point)
    requires Jump(a, d, back) in G && Reach(G, Point(d, 0), tr, z)
    ensures Reach(G, a, tr, z)
  {
    var es :| PathTo(G, Point(d, 0), es, z) && Labels1(es) == tr;
    var es' := [Jump(a, d, back)] + es;
    assert es'[1..] == es;
    assert PathTo(G, a, es', z) && Labels1(es') == tr;
  }

  lemma StepReach(G: seq<Event>, a: Point, u: UseSite, tr: seq<UseSite>, z: Point)
    requires Step(a, Some(u)) in G && Reach(G, Point(a.block, a.off + 1), tr, z)
    ensures Reach(G, a, [Erase(u)] + tr, z)
  {
    var q := Point(a.block, a.off + 1);
    var es :| PathTo(G, q, es, z) && Labels1(es) == tr;
    var es' := [Step(a, Some(u))] + es;
    assert es'[1..] == es;
    assert PathTo(G, a, es', z) && Labels1(es') == [Erase(u)] + tr;
  }

  /** The way past the branch of a let-else. */
  lemma PassReach(G: seq<Event>, a: Point, tr: seq<UseSite>, z: Point)
    requires Step(a, None) in G && Reach(G, Point(a.block, a.off + 1), tr, z)
    ensures Reach(G, a, tr, z)
  {
    var es :| PathTo(G, Point(a.block, a.off + 1), es, z) && Labels1(es) == tr;
    var es' := [Step(a, None)] + es;
    assert es'[1..] == es;
    assert PathTo(G, a, es', z) && Labels1(es') == tr;
  }

  ghost predicate Within(log: seq<Event>, G: seq<Event>) {
    forall ev :: ev in log ==> ev in G
  }

  lemma {:induction false} DefsReach(names: seq<string>, span: nat, p: Point, n: nat, r: Ren,
                                     G: seq<Event>, tr: seq<UseSite>, z: Point)
    requires Within(LowerDefs(names, span, p, n, r).log, G)
    requires Reach(G, LowerDefs(names, span, p, n, r).out, tr, z)
    ensures Reach(G, p, Defines(names, span) + tr, z)
    decreases |names|
  {
    if names == [] {
      assert [] + tr == tr;
    } else {
      var q := Point(p.block, p.off + 1);
      var r1 := Note(r, names[0]);
      var d := LowerDefs(names[1..], span, q, n, r1);
      var u := Rename(r1, DefineUse(names[0], span));
      assert LowerDefs(names, span, p, n, r).log == [Step(p, Some(u))] + d.log;
      assert Step(p, Some(u)) in [Step(p, Some(u))] + d.log;
      DefsReach(names[1..], span, q, n, r1, G, tr, z);
      StepReach(G, p, u, Defines(names[1..], span) + tr, z);
      assert [DefineUse(names[0], span)] + (Defines(names[1..], span) + tr) == Defines(names, span) + tr;
    }
  }
}
