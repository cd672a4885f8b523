/** Copies of cleanup bodies: every exit lowers the cleanup bodies on its way anew, and what
    they bind has another identity in every copy. */
module CfgCopies {
  import opened Options
  import opened CfgSyntax
  import opened CfgLowering
  import opened CfgOccurrences
  import opened CfgUses

  /** The frames of `r` were pushed before number `lo`, or from `hi` on. */
  ghost predicate Apart(r: Ren, lo: nat, hi: nat) {
    forall i :: 0 <= i < |r.stack| ==>
      r.stack[i].suffix.Tag? && (r.stack[i].suffix.id < lo || hi <= r.stack[i].suffix.id < r.nextId)
  }

  lemma {:induction false} NotBetween(stack: seq<RenFrame>, x: string, lo: nat, hi: nat)
    requires forall i :: 0 <= i < |stack| ==>
      stack[i].suffix.Tag? && (stack[i].suffix.id < lo || hi <= stack[i].suffix.id)
    ensures var s := Mangle(stack, x).suffix; s.Tag? ==> s.id < lo || hi <= s.id
    decreases |stack|
  {
    if stack != [] {
      NotBetween(stack[..|stack| - 1], x, lo, hi);
    }
  }

  /** A chain of cleanup bodies: the identities it records are new or from outside, those of
      the names introduced in them are new, and the frames are left as they were. */
  lemma {:induction false} ChainShown(bs: seq<Block>, c: Ctx, p: Point, n: nat, r: Ren, w: World)
    requires c.cl == w.cl && BodiesIn(bs, w.all)
    requires w.start.framed && w.start.frames == r.stack && w.start.first <= r.nextId
    ensures var f := LowerChain(bs, c, p, n, r);
      Told(f.log, DueBodies(bs, c.cl, c.inSink), w, f.ren.nextId) && f.ren.stack == r.stack &&
      r.nextId <= f.ren.nextId
    decreases |bs|
  {
    hide Told, LowerBlock, OccB, DueB;
    if bs == [] {
      assert Told([], {}, w, r.nextId) by { NothingTold(w, r.nextId); }
    } else {
      var r0 := PushFrame(r, Cu);
      var f := LowerBlock(bs[0], CleanupCtx(c), Point(n, 0), n + 1, r0);
      assert r0.stack[..|r.stack|] == r.stack;
      ShowBlock(bs[0], CleanupCtx(c), Point(n, 0), n + 1, r0, w);
      var r1 := PopFrame(f.ren);
      assert r1.stack == f.ren.stack[..|r.stack|] == r.stack;
      var g := LowerChain(bs[1..], c, f.out, f.next, r1);
      ChainShown(bs[1..], c, f.out, f.next, r1, w);
      var due, rest := DueB(bs[0], c.cl, c.inSink), DueBodies(bs[1..], c.cl, c.inSink);
      ToldLater(f.log, due, w, f.ren.nextId, g.ren.nextId);
      ToldCat(f.log, due, g.log, rest, w, g.ren.nextId);
      ToldSame(f.log + g.log, due + rest, w, g.ren.nextId, Enter(p, n, f).log + g.log, due + rest);
    }
  }

  lemma NothingTold(w: World, hi: nat)
    ensures Told([], {}, w, hi)
  {
  }

  /** The cleanup bodies on the way of an exit. */
  function ExitBodies(o: Outcome, c: Ctx): seq<Block>
    requires o != Normal && TargetOf(c, o).Some?
  {
    TargetOf(c, o).value.bodies
  }

  /** What they have to record. */
  function Due(o: Outcome, c: Ctx): set<Occ>
    requires o != Normal && TargetOf(c, o).Some?
  {
    DueBodies(ExitBodies(o, c), c.cl, c.inSink)
  }

  function OccAll(bs: seq<Block>): set<Occ> {
    if bs == [] then {} else OccB(bs[0], true) + OccAll(bs[1..])
  }

  lemma {:induction false} AllIn(bs: seq<Block>, all: set<Occ>)
    requires OccAll(bs) <= all
    ensures BodiesIn(bs, all)
  {
    if bs != [] {
      AllIn(bs[1..], all);
      assert forall i :: 0 < i < |bs| ==> bs[i] == bs[1..][i - 1];
    }
  }

  function WorldOf(o: Outcome, c: Ctx, r: Ren): World
    requires o != Normal && TargetOf(c, o).Some?
  {
    World(OccAll(ExitBodies(o, c)), c.cl, Start(r.stack, r.nextId, true))
  }

  lemma UnwindShown(o: Outcome, c: Ctx, p: Point, n: nat, r: Ren)
    requires o != Normal && TargetOf(c, o).Some?
    ensures var f := Unwind(o, c, p, n, r);
      Told(f.log, Due(o, c), WorldOf(o, c, r), f.ren.nextId) && f.ren.stack == r.stack &&
      r.nextId <= f.ren.nextId
  {
    hide OccAll, Told, LowerChain;
    AllIn(ExitBodies(o, c), OccAll(ExitBodies(o, c)));
    ChainShown(ExitBodies(o, c), c, p, n, r, WorldOf(o, c, r));
  }

  /** The name means what it meant before the exit. */
  predicate IsOuter(id: Ident, r: Ren) {
    id == Mangle(r.stack, id.name)
  }

  ghost predicate NotIn(id: Ident, log: seq<Event>) {
    forall ev :: ev in log && Records(ev) ==> ev.use.value.binding != id
  }

  /** The cleanup of two exits, the second lowered behind the first: where it records the same
      identity twice, that is of a binding from outside at both exits; and a name introduced
      in a cleanup body of the first exit carries an identity that the second does not
      record at all. */
  lemma CopiesApart(o1: Outcome, c1: Ctx, p1: Point, n1: nat, r1: Ren,
                    o2: Outcome, c2: Ctx, p2: Point, n2: nat, r2: Ren)
    requires o1 != Normal && TargetOf(c1, o1).Some? && o2 != Normal && TargetOf(c2, o2).Some?
    requires Apart(r1, r1.nextId, r1.nextId)
    requires var hi := Unwind(o1, c1, p1, n1, r1).ren.nextId; hi <= r2.nextId && Apart(r2, r1.nextId, hi)
    ensures var a := Unwind(o1, c1, p1, n1, r1).log; var b := Unwind(o2, c2, p2, n2, r2).log;
      && (forall x, y :: x in a && y in b && Records(x) && Records(y) && x.use.value.binding == y.use.value.binding ==>
            IsOuter(x.use.value.binding, r1) && IsOuter(y.use.value.binding, r2))
      && (forall o :: o in Due(o1, c1) && o.Introduced? ==>
            exists x :: x in a && Records(x) && Says(x.use.value, o, c1.cl) && NotIn(x.use.value.binding, b))
  {
    hide Unwind, Told, Says, Due, ExitBodies, Apart, Mangle;
    var f, g := Unwind(o1, c1, p1, n1, r1), Unwind(o2, c2, p2, n2, r2);
    UnwindShown(o1, c1, p1, n1, r1);
    UnwindShown(o2, c2, p2, n2, r2);
    forall x, y | x in f.log && y in g.log && Records(x) && Records(y) &&
        x.use.value.binding == y.use.value.binding
      ensures IsOuter(x.use.value.binding, r1) && IsOuter(y.use.value.binding, r2)
    {
      TwoCopies(o1, c1, r1, f, o2, c2, r2, g, x, y);
    }
    forall o | o in Due(o1, c1) && o.Introduced?
      ensures exists x :: x in f.log && Records(x) && Says(x.use.value, o, c1.cl) && NotIn(x.use.value.binding, g.log)
    {
      var x := Marker(f.log, Due(o1, c1), WorldOf(o1, c1, r1), f.ren.nextId, o);
      forall y | y in g.log && Records(y)
        ensures y.use.value.binding != x.use.value.binding
      {
        NewIsOther(o2, c2, r2, g, y, r1.nextId, f.ren.nextId);
      }
    }
  }

  lemma Marker(log: seq<Event>, need: set<Occ>, w: World, hi: nat, o: Occ) returns (ev: Event)
    requires Told(log, need, w, hi) && o in need && o.Introduced? && w.start.framed
    ensures ev in log && Records(ev) && Says(ev.use.value, o, w.cl) && Fresh(ev.use.value.binding, w.start, hi)
  {
    assert Found(log, o, w, hi);
    ev :| ev in log && Records(ev) && Right(ev.use.value, o, w, hi);
  }

  /** What the second exit records has no number of the first. */
  lemma NewIsOther(o: Outcome, c: Ctx, r: Ren, g: Frag, y: Event, lo: nat, hi: nat)
    requires o != Normal && TargetOf(c, o).Some? && y in g.log && Records(y)
    requires Told(g.log, Due(o, c), WorldOf(o, c, r), g.ren.nextId)
    requires hi <= r.nextId && Apart(r, lo, hi)
    ensures var id := y.use.value.binding;
      && (id.suffix.Tag? ==> id.suffix.id < lo || hi <= id.suffix.id)
      && (Fresh(id, WorldOf(o, c, r).start, g.ren.nextId) || IsOuter(id, r))
  {
    hide Says, Due, ExitBodies, Mangle, OccAll;
    var id := y.use.value.binding;
    var w := WorldOf(o, c, r);
    assert IsRight(y.use.value, w, g.ren.nextId);
    NotBetween(r.stack, id.name, lo, hi);
  }

  lemma TwoCopies(o1: Outcome, c1: Ctx, r1: Ren, f: Frag, o2: Outcome, c2: Ctx, r2: Ren, g: Frag, x: Event, y: Event)
    requires o1 != Normal && TargetOf(c1, o1).Some? && o2 != Normal && TargetOf(c2, o2).Some?
    requires Told(f.log, Due(o1, c1), WorldOf(o1, c1, r1), f.ren.nextId)
    requires Told(g.log, Due(o2, c2), WorldOf(o2, c2, r2), g.ren.nextId)
    requires Apart(r1, r1.nextId, r1.nextId) && r1.nextId <= f.ren.nextId <= r2.nextId &&
        Apart(r2, r1.nextId, f.ren.nextId)
    requires x in f.log && y in g.log && Records(x) && Records(y) && x.use.value.binding == y.use.value.binding
    ensures IsOuter(x.use.value.binding, r1) && IsOuter(y.use.value.binding, r2)
  {
    hide Told, Due, ExitBodies, Mangle, OccAll;
    NewIsOther(o1, c1, r1, f, x, r1.nextId, r1.nextId);
    NewIsOther(o2, c2, r2, g, y, r1.nextId, f.ren.nextId);
    OldOnly(r1, x.use.value.binding);
  }

  lemma {:induction false} Older(stack: seq<RenFrame>, x: string, hi: nat)
    requires forall i :: 0 <= i < |stack| ==> stack[i].suffix.Tag? && stack[i].suffix.id < hi
    ensures var s := Mangle(stack, x).suffix; s.Tag? ==> s.id < hi
    decreases |stack|
  {
    if stack != [] {
      Older(stack[..|stack| - 1], x, hi);
    }
  }

  lemma OldOnly(r: Ren, id: Ident)
    requires Apart(r, r.nextId, r.nextId) && IsOuter(id, r)
    ensures id.suffix.Tag? ==> id.suffix.id < r.nextId
  {
    Older(r.stack, id.name, r.nextId);
  }
}
