/** A finished graph holds exactly a fragment's events at the positions inside
    the fragment; then it does so for each part of the fragment. */
module CfgExact {
  import opened Options
  import opened CfgLowering
  import opened CfgGood
  import opened CfgPaths

  /** Where the events of a fragment lie, and that none lies at its end. */
  ghost predicate Lean(f: Frag, p: Point, n: nat) {
    && f.next >= n && p.block < n && OutOk(f.out, p, n, f.next)
    && (forall ev :: ev in f.log ==> From(ev, p, n, f.next))
    && Behind(f.log, f.out)
  }

  lemma GoodLean(f: Frag, X: Targets, p: Point, n: nat, m: Mode)
    requires Good(f, X, p, n, m) && !m.side && p.block < n
    ensures Lean(f, p, n)
  {
    hide Linked, Flow;
  }

  /** A position of the fragment before its end. */
  ghost predicate Inside(q: Point, p: Point, out: Point, n: nat, next: nat) {
    ((q.block == p.block && q.off >= p.off) || n <= q.block < next) && !(q.block == out.block && q.off >= out.off)
  }

  ghost predicate Exact(G: seq<Event>, log: seq<Event>, p: Point, out: Point, n: nat, next: nat) {
    forall ev :: ev in G && !IsMark(ev) && Inside(ev.src, p, out, n, next) ==> ev in log
  }

  ghost predicate ExactF(G: seq<Event>, f: Frag, p: Point, n: nat) {
    Exact(G, f.log, p, f.out, n, f.next)
  }

  /** From `q` the graph goes nowhere but by the given events. */
  ghost predicate Only(G: seq<Event>, q: Point, moves: set<Event>) {
    forall ev :: Moves(G, ev, q) ==> ev in moves
  }

  lemma ExactCat(G: seq<Event>, f: Frag, g: Frag, p: Point, n: nat)
    requires Lean(f, p, n) && Lean(g, f.out, f.next) && ExactF(G, Cat(f, g), p, n)
    ensures ExactF(G, f, p, n) && ExactF(G, g, f.out, f.next)
  {
  }

  /** If without else: `f` the condition, `t` the branch. */
  lemma ExactIf(G: seq<Event>, f: Frag, t: Frag, p: Point, n: nat)
    requires Lean(f, p, n) && Lean(t, Point(f.next, 0), f.next + 1)
    requires var k := Cat(f, Enter(f.out, f.next, t));
      ExactF(G, Close(k, [Jump(k.out, k.next, false), Jump(f.out, k.next, false)]), p, n)
    ensures ExactF(G, f, p, n) && ExactF(G, t, Point(f.next, 0), f.next + 1)
    ensures Only(G, f.out, {Jump(f.out, f.next, false), Jump(f.out, t.next, false)})
    ensures Only(G, t.out, {Jump(t.out, t.next, false)})
  {
  }

  /** If with else: `h` the else-branch. */
  lemma ExactIfElse(G: seq<Event>, f: Frag, t: Frag, h: Frag, p: Point, n: nat)
    requires Lean(f, p, n) && Lean(t, Point(f.next, 0), f.next + 1) && Lean(h, Point(t.next + 1, 0), t.next + 2)
    requires var k := Cat(f, Enter(f.out, f.next, t));
      ExactF(G, Merge(k, [Jump(k.out, k.next, false)], Branch(f.out, k.next, k.next + 1, h)), p, n)
    ensures ExactF(G, f, p, n) && ExactF(G, t, Point(f.next, 0), f.next + 1) &&
        ExactF(G, h, Point(t.next + 1, 0), t.next + 2)
    ensures Only(G, f.out, {Jump(f.out, f.next, false), Jump(f.out, t.next + 1, false)})
    ensures Only(G, t.out, {Jump(t.out, t.next, false)}) && Only(G, h.out, {Jump(h.out, t.next, false)})
  {
  }

  lemma ExactClose(G: seq<Event>, f: Frag, js: seq<Event>, p: Point, n: nat)
    requires Lean(f, p, n) && ExactF(G, Close(f, js), p, n)
    requires forall ev :: ev in js ==> ev.src == f.out
    ensures ExactF(G, f, p, n) && Only(G, f.out, set ev | ev in js)
  {
  }

  /** Let-else: the value `f`, the diverging block `g` and the rest of the block `h`. */
  lemma ExactAside(G: seq<Event>, f: Frag, g: Frag, h: Frag, p: Point, n: nat)
    requires Lean(f, p, n) && Lean(g, Point(f.next, 0), f.next + 1) && Lean(h, Aside(f, g).out, g.next)
    requires ExactF(G, Cat(Aside(f, g), h), p, n)
    ensures ExactF(G, f, p, n) && ExactF(G, g, Point(f.next, 0), f.next + 1) && ExactF(G, h, Aside(f, g).out, g.next)
    ensures Only(G, f.out, {Jump(f.out, f.next, false), Step(f.out, None)}) && Only(G, g.out, {})
  {
  }

  // ── Match arms ───────────────────────────────────────────────────

  /** The graph's events in the arms' own blocks are the arms'. */
  ghost predicate ArmsExact(G: seq<Event>, log: seq<Event>, n: nat, next: nat) {
    forall ev :: ev in G && !IsMark(ev) && n <= ev.src.block < next ==> ev in log
  }

  ghost predicate ArmsFrom(log: seq<Event>, q: Point, n: nat, next: nat) {
    forall ev :: ev in log ==> (ev.src.block == q.block && ev.Jump?) || n <= ev.src.block < next
  }

  lemma ExactMerge(G: seq<Event>, f: Frag, g: Frag, p: Point, n: nat)
    requires Lean(f, p, n) && g.next > f.next && ExactF(G, Merge(f, [], g), p, n) &&
        ArmsFrom(g.log, f.out, f.next + 1, g.next)
    requires forall ev :: ev in g.log && ev.src.block == f.out.block ==> ev.src == f.out
    ensures ExactF(G, f, p, n) && ArmsExact(G, g.log, f.next + 1, g.next)
    ensures forall ev :: Moves(G, ev, f.out) ==> ev in g.log
  {
  }

  /** The first arm `f`, in block `n`, and the others. */
  lemma ExactArm(G: seq<Event>, q: Point, merge: nat, n: nat, f: Frag, g: Frag)
    requires q.block < n && Lean(f, Point(n, 0), n + 1) && g.next >= f.next && ArmsFrom(g.log, q, f.next, g.next)
    requires ArmsExact(G, Cat(Branch(q, merge, n, f), g).log, n, g.next)
    ensures ExactF(G, f, Point(n, 0), n + 1) && Only(G, f.out, {Jump(f.out, merge, false)})
    ensures ArmsExact(G, g.log, f.next, g.next)
    ensures forall ev :: ev in Branch(q, merge, n, f).log && ev.src.block == q.block ==> ev == Jump(q, n, false)
  {
  }

  // ── Exits and cleanup ────────────────────────────────────────────

  /** The graph's events in the chain's own blocks, before its end, are the chain's. */
  ghost predicate ChainExact(G: seq<Event>, f: Frag, n: nat) {
    forall ev :: ev in G && !IsMark(ev) && n <= ev.src.block < f.next &&
        !(ev.src.block == f.out.block && ev.src.off >= f.out.off)
      ==> ev in f.log
  }

  /** What a chain does at the position where it starts: nothing, or enter its first block. */
  ghost predicate ChainStart(g: Frag, q: Point, n: nat) {
    (forall ev :: ev in g.log && ev.src.block == q.block ==> ev == Jump(q, n, false)) && (g.log == [] ==> g.out == q)
  }

  lemma ExactLeave(G: seq<Event>, f: Frag, g: Frag, dst: nat, back: bool, p: Point, n: nat)
    requires Lean(f, p, n) && Lean(g, f.out, f.next) && ChainStart(g, f.out, f.next)
    requires ExactF(G, Close(Cat(f, g), [Jump(g.out, dst, back)]), p, n)
    requires g.out == f.out || g.out.block >= f.next
    ensures ExactF(G, f, p, n) && ChainExact(G, g, f.next) && Only(G, g.out, {Jump(g.out, dst, back)})
    ensures g.out != f.out ==> Only(G, f.out, {Jump(f.out, f.next, false)})
  {
  }

  lemma ExactQuestion(G: seq<Event>, f: Frag, g: Frag, exit: nat, p: Point, n: nat)
    requires Lean(f, p, n) && Lean(g, f.out, f.next) && ChainStart(g, f.out, f.next)
    requires ExactF(G, Close(Cat(f, g), [Jump(g.out, exit, false), Jump(f.out, g.next, false)]), p, n)
    requires g.out == f.out || g.out.block >= f.next
    ensures ExactF(G, f, p, n) && ChainExact(G, g, f.next)
    ensures Only(G, f.out, {Jump(f.out, if g.out == f.out then exit else f.next, false), Jump(f.out, g.next, false)})
    ensures g.out != f.out ==> Only(G, g.out, {Jump(g.out, exit, false)})
  {
  }

  /** The first cleanup body `f`, in block `n`, and the others. */
  lemma ExactChain(G: seq<Event>, p: Point, n: nat, f: Frag, g: Frag)
    requires p.block < n && Lean(f, Point(n, 0), n + 1) && Lean(g, f.out, f.next) && ChainStart(g, f.out, f.next)
    requires ChainExact(G, Cat(Enter(p, n, f), g), n)
    requires g.out == f.out || g.out.block >= f.next
    ensures ExactF(G, f, Point(n, 0), n + 1) && ChainExact(G, g, f.next)
    ensures g.out != f.out ==> Only(G, f.out, {Jump(f.out, f.next, false)})
  {
  }

  // ── Loops ────────────────────────────────────────────────────────

  /** `loop`: the body starts in the header. */
  lemma ExactLoop(G: seq<Event>, p: Point, n: nat, h: Frag, g: Frag, r: Ren)
    requires p.block < n && h.log == [Jump(p, n, false)] && h.out == Point(n, 0) && h.next == n + 2 &&
        Lean(g, h.out, h.next)
    requires ExactF(G, LoopBack(n, h, g, r), p, n)
    ensures Only(G, p, {Jump(p, n, false)}) && ExactF(G, g, h.out, h.next) && Only(G, g.out, {Jump(g.out, n, true)})
  {
  }

  /** `while` and `for`: the condition `f`, the loop variables `d` and the body `g`. */
  lemma ExactWhile(G: seq<Event>, p: Point, n: nat, f: Frag, d: Frag, g: Frag, r: Ren)
    requires p.block < n && Lean(f, Point(n, 0), n + 1) && Lean(d, Point(f.next, 0), f.next + 2)
    requires d.next == f.next + 2 && d.out.block == f.next && Lean(g, d.out, d.next)
    requires ExactF(G, LoopBack(n, Cat(Heading(p, n, f), d), g, r), p, n)
    ensures Only(G, p, {Jump(p, n, false)}) && ExactF(G, f, Point(n, 0), n + 1)
    ensures Only(G, f.out, {Jump(f.out, f.next, false), Jump(f.out, f.next + 1, false)})
    ensures ExactF(G, d, Point(f.next, 0), f.next + 2) && ExactF(G, g, d.out, d.next)
    ensures Only(G, g.out, {Jump(g.out, n, true)})
  {
  }
}
