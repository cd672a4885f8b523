/** What every lowering keeps, stated about fragments as values: where its
    writes go, in which order, and how its loops and side branches are closed
    off from the rest. Each way of joining fragments keeps it. */
module CfgGood {
  import opened Options
  import opened CfgLowering

  /** Edge targets outside a fragment: the block, and whether the edge is a back edge. */
  type Targets = set<(nat, bool)>

  /** Targets are old blocks, and no forward edge is to come to the current block. */
  ghost predicate Old(X: Targets, p: Point, n: nat) {
    p.block < n && forall x :: x in X ==> x.0 < n && x != (p.block, false)
  }

  ghost predicate IsMark(ev: Event) {
    ev.SinkMark? || ev.LoopMark?
  }

  /** The blocks of a side branch; the blocks of a loop, without its merge block. */
  ghost predicate InMark(mk: Event, b: nat)
    requires IsMark(mk)
  {
    if mk.SinkMark? then b == mk.src.block || mk.lo <= b < mk.hi
    else mk.src.block <= b < mk.hi && b != mk.hole
  }

  /** The event continues the block `p` or belongs to a block in `n..m`. */
  ghost predicate From(ev: Event, p: Point, n: nat, m: nat) {
    (ev.src.block == p.block && ev.src.off >= p.off) || n <= ev.src.block < m
  }

  ghost predicate To(ev: Event, X: Targets, n: nat, m: nat) {
    ev.Jump? ==> n <= ev.dst < m || (ev.dst, ev.back) in X
  }

  ghost predicate Local(log: seq<Event>, X: Targets, p: Point, n: nat, m: nat) {
    forall ev :: ev in log ==> From(ev, p, n, m) && To(ev, X, n, m)
  }

  ghost predicate OutOk(out: Point, p: Point, n: nat, m: nat) {
    (out.block == p.block && out.off >= p.off) || n <= out.block < m
  }

  /** `first` may not come before `second`: an edge out of a block before a
      forward edge into it; with `sealed`, an edge out of a block before a use
      in it; a mark before anything in or into its blocks. */
  ghost predicate Conf(first: Event, second: Event, sealed: bool) {
    || (first.Jump? && second.Jump? && !second.back && first.src.block == second.dst)
    || (sealed && first.Jump? && second.Step? && second.use.Some? && first.src.block == second.src.block)
    || (first.SinkMark? && (InMark(first, second.src.block) || (second.Jump? && InMark(first, second.dst))))
  }

  ghost predicate NoConf(log: seq<Event>, sealed: bool) {
    forall i, j :: 0 <= i < j < |log| ==> !Conf(log[i], log[j], sealed)
  }

  /** No forward edge from a block to itself. */
  ghost predicate NoSelf(log: seq<Event>) {
    forall ev :: ev in log && ev.Jump? && !ev.back ==> ev.src.block != ev.dst
  }

  ghost predicate Cross(a: seq<Event>, b: seq<Event>, sealed: bool) {
    forall e, e' :: e in a && e' in b ==> !Conf(e, e', sealed)
  }

  /** Jumps leave a closed side branch only to the exit, and enter a loop only at its header. */
  ghost predicate PairOk(mk: Event, ev: Event, exit: nat) {
    ev.Jump? ==>
      && (mk.SinkMark? && mk.closed && InMark(mk, ev.src.block) ==> InMark(mk, ev.dst) || ev.dst == exit)
      && (mk.LoopMark? && InMark(mk, ev.dst) && ev.dst != mk.src.block ==> InMark(mk, ev.src.block))
  }

  ghost predicate Pairs(a: seq<Event>, b: seq<Event>, exit: nat) {
    forall e, e' :: e in a && e' in b ==> PairOk(e, e', exit)
  }

  ghost predicate HasLoop(log: seq<Event>, ev: Event)
    requires ev.Jump?
  {
    exists mk :: mk in log && mk.LoopMark? && mk.src.block == ev.dst && InMark(mk, ev.src.block)
  }

  /** Every back edge to a header minted here comes from that header's loop. */
  ghost predicate Backs(log: seq<Event>, n: nat) {
    forall ev :: ev in log && ev.Jump? && ev.back && ev.dst >= n ==> HasLoop(log, ev)
  }

  ghost predicate MarkIn(mk: Event, out: nat, n: nat, m: nat) {
    && (mk.SinkMark? ==> n <= mk.src.block < m && n <= mk.lo && mk.hi <= m && !InMark(mk, out))
    && (mk.LoopMark? ==> n <= mk.src.block < mk.hi <= m)
  }

  ghost predicate MarksIn(log: seq<Event>, out: nat, n: nat, m: nat) {
    forall mk :: mk in log ==> MarkIn(mk, out, n, m)
  }

  /** Nothing but earlier uses has happened in the block where execution goes on. */
  ghost predicate Frontier(log: seq<Event>, out: Point) {
    forall ev :: ev in log && ev.src.block == out.block ==> ev.Step? && ev.src.off < out.off
  }

  /** Nothing has happened at the position where execution goes on. */
  ghost predicate Behind(log: seq<Event>, out: Point) {
    forall ev :: ev in log && ev.src.block == out.block ==> ev.src.off < out.off
  }

  /** After a mark outside sink arguments, no block that has an edge already gets a use. */
  ghost predicate Quiet(log: seq<Event>) {
    forall i, k, j :: 0 <= i < k < j < |log| ==>
      !(log[i].Jump? && log[k].SinkMark? && !log[k].nested && log[j].Step? && log[i].src.block == log[j].src.block)
  }

  ghost predicate NoUseAfter(a: seq<Event>, b: seq<Event>) {
    forall e, e' :: e in a && e' in b ==> !(e.Jump? && e'.Step? && e.src.block == e'.src.block)
  }

  ghost predicate AllNested(log: seq<Event>) {
    forall ev :: ev in log && ev.SinkMark? ==> ev.nested
  }

  /** `open` allows let-else, `side` allows side branches, `nest` says the
      fragment is inside a sink argument. */
  datatype Mode = Mode(exit: nat, open: bool, side: bool, nest: bool)

  function Base(p: Point, b: nat): nat {
    if b == p.block then p.off else 0
  }

  /** `q` is the end of its block once the log is written. */
  ghost predicate AtEnd(log: seq<Event>, q: Point, p: Point) {
    q.off == Base(p, q.block) + Steps(log, q.block)
  }

  /** Uses fill the blocks without gaps, and edges leave from the current end. */
  ghost predicate Placed(log: seq<Event>, p: Point) {
    forall i :: 0 <= i < |log| && !IsMark(log[i]) ==> AtEnd(log[..i], log[i].src, p)
  }

  lemma {:induction false} StepsCat(a: seq<Event>, b: seq<Event>, k: nat)
    ensures Steps(a + b, k) == Steps(a, k) + Steps(b, k)
  {
    if b == [] {
      assert a + b == a;
    } else {
      assert (a + b)[..|a + b| - 1] == a + b[..|b| - 1];
      StepsCat(a, b[..|b| - 1], k);
    }
  }

  lemma {:induction false} NoSteps(log: seq<Event>, b: nat)
    requires forall ev :: ev in log && ev.Step? ==> ev.src.block != b
    ensures Steps(log, b) == 0
  {
    if log != [] {
      assert log[|log| - 1] in log;
      NoSteps(log[..|log| - 1], b);
    }
  }

  /** Uses are placed, and execution goes on at the end of `out`'s block. */
  ghost predicate Flow(log: seq<Event>, out: Point, p: Point) {
    Placed(log, p) && AtEnd(log, out, p)
  }

  /** In block `b`, what starts from `q` continues what `log` wrote from `p`. */
  ghost predicate Continues(log: seq<Event>, p: Point, q: Point, b: nat) {
    Base(q, b) == Base(p, b) + Steps(log, b)
  }

  lemma FlowCat(a: seq<Event>, b: seq<Event>, out: Point, p: Point, q: Point)
    requires Placed(a, p) && Flow(b, out, q)
    requires forall ev :: ev in b ==> Continues(a, p, q, ev.src.block)
    requires Continues(a, p, q, out.block)
    ensures Flow(a + b, out, p)
  {
    var s := a + b;
    forall i | 0 <= i < |s| && !IsMark(s[i])
      ensures AtEnd(s[..i], s[i].src, p)
    {
      if i < |a| {
        assert s[..i] == a[..i];
      } else {
        assert s[..i] == a + b[..i - |a|] && s[i] in b;
        assert AtEnd(b[..i - |a|], b[i - |a|].src, q);
        StepsCat(a, b[..i - |a|], s[i].src.block);
      }
    }
    StepsCat(a, b, out.block);
  }

  /** Edges and marks add no use. */
  lemma FlowEdges(log: seq<Event>, js: seq<Event>, out: Point, p: Point)
    requires Placed(log, p) && AtEnd(log, out, p)
    requires forall ev :: ev in js ==> !ev.Step? && (ev.Jump? ==> AtEnd(log, ev.src, p))
    ensures Flow(log + js, out, p)
  {
    var s := log + js;
    forall i | 0 <= i < |s| && !IsMark(s[i])
      ensures AtEnd(s[..i], s[i].src, p)
    {
      if i < |log| {
        assert s[..i] == log[..i];
      } else {
        assert s[..i] == log + js[..i - |log|] && s[i] in js;
        StepsCat(log, js[..i - |log|], s[i].src.block);
        NoSteps(js[..i - |log|], s[i].src.block);
      }
    }
    StepsCat(log, js, out.block);
    NoSteps(js, out.block);
  }

  lemma FreshContinues(log: seq<Event>, p: Point, n: nat, k: nat, q: Point, b: nat)
    requires p.block < n <= k <= b && (forall ev :: ev in log ==> From(ev, p, n, k)) && (q.block != b || q.off == 0)
    ensures Continues(log, p, q, b)
  {
    NoSteps(log, b);
  }

  /** The order and the closure of marks within one log. */
  ghost predicate Linked(log: seq<Event>, n: nat, m: Mode) {
    && NoConf(log, !m.open && !m.side)
    && NoSelf(log)
    && Pairs(log, log, m.exit)
    && Backs(log, n)
    && (!m.open ==> Quiet(log))
    && (m.nest ==> AllNested(log))
  }

  /** What links two logs to one. */
  ghost predicate Compat(a: seq<Event>, b: seq<Event>, m: Mode) {
    && Cross(a, b, !m.open && !m.side)
    && Pairs(a, b, m.exit) && Pairs(b, a, m.exit)
    && (!m.open ==> NoUseAfter(a, b))
  }

  /** What holds of a log whose events continue `p` or belong to the blocks
      `n..next`, when execution goes on at `out`. */
  ghost predicate Body(log: seq<Event>, out: Point, X: Targets, p: Point, n: nat, next: nat, m: Mode) {
    && next >= n
    && Local(log, X, p, n, next)
    && Flow(log, out, p)
    && Linked(log, n, m)
    && MarksIn(log, out.block, n, next)
    && (!m.open ==> Frontier(log, out))
    && (!m.side ==> Behind(log, out))
  }

  ghost predicate Good(f: Frag, X: Targets, p: Point, n: nat, m: Mode) {
    f.next >= n && OutOk(f.out, p, n, f.next) && Body(f.log, f.out, X, p, n, f.next, m)
  }

  lemma NoConfCat(a: seq<Event>, b: seq<Event>, sealed: bool)
    requires NoConf(a, sealed) && NoConf(b, sealed) && Cross(a, b, sealed)
    ensures NoConf(a + b, sealed)
  {
    var s := a + b;
    forall i, j | 0 <= i < j < |s|
      ensures !Conf(s[i], s[j], sealed)
    {
      if j < |a| {
        assert !Conf(a[i], a[j], sealed);
      } else if i >= |a| {
        assert !Conf(b[i - |a|], b[j - |a|], sealed);
      } else {
        assert s[i] in a && s[j] in b;
      }
    }
  }

  lemma QuietCat(a: seq<Event>, b: seq<Event>)
    requires Quiet(a) && Quiet(b) && NoUseAfter(a, b)
    ensures Quiet(a + b)
  {
    var s := a + b;
    forall i, k, j | 0 <= i < k < j < |s| && s[i].Jump? && s[k].SinkMark? && !s[k].nested && s[j].Step?
      ensures s[i].src.block != s[j].src.block
    {
      if j < |a| {
        assert s[i] == a[i] && s[k] == a[k] && s[j] == a[j];
      } else if i >= |a| {
        assert s[i] == b[i - |a|] && s[k] == b[k - |a|] && s[j] == b[j - |a|];
      } else {
        assert s[i] in a && s[j] in b;
      }
    }
  }

  lemma NestedQuiet(log: seq<Event>)
    requires AllNested(log)
    ensures Quiet(log)
  {
    forall k | 0 <= k < |log| && log[k].SinkMark?
      ensures log[k].nested
    {
      assert log[k] in log;
    }
  }

  lemma PairsCat(a: seq<Event>, b: seq<Event>, exit: nat)
    requires Pairs(a, a, exit) && Pairs(b, b, exit) && Pairs(a, b, exit) && Pairs(b, a, exit)
    ensures Pairs(a + b, a + b, exit)
  {
  }

  lemma BacksCat(a: seq<Event>, b: seq<Event>, n: nat)
    requires Backs(a, n) && Backs(b, n)
    ensures Backs(a + b, n)
  {
    forall ev | ev in a + b && ev.Jump? && ev.back && ev.dst >= n
      ensures HasLoop(a + b, ev)
    {
      var s := if ev in a then a else b;
      var mk :| mk in s && mk.LoopMark? && mk.src.block == ev.dst && InMark(mk, ev.src.block);
      assert mk in a + b;
    }
  }

  lemma LinkCat(a: seq<Event>, b: seq<Event>, n: nat, m: Mode)
    requires Linked(a, n, m) && Linked(b, n, m) && Compat(a, b, m)
    ensures Linked(a + b, n, m)
  {
    NoConfCat(a, b, !m.open && !m.side);
    PairsCat(a, b, m.exit);
    BacksCat(a, b, n);
    if !m.open {
      QuietCat(a, b);
    }
  }

  lemma CompatCat(a: seq<Event>, b: seq<Event>, c: seq<Event>, m: Mode)
    requires Compat(a, c, m) && Compat(b, c, m)
    ensures Compat(a + b, c, m)
  {
  }

  /** A log of forward and outward edges between blocks that are not targets of one another. */
  lemma LinkJumps(js: seq<Event>, n: nat, m: Mode)
    requires forall ev :: ev in js ==> ev.Jump? && (ev.back ==> ev.dst < n)
    requires forall e, e' :: e in js && e' in js && !e'.back ==> e.src.block != e'.dst
    ensures Linked(js, n, m)
  {
    forall i | 0 <= i < |js| ensures js[i].Jump? { assert js[i] in js; }
    forall i, j | 0 <= i < j < |js|
      ensures !Conf(js[i], js[j], !m.open && !m.side)
    {
      assert js[i] in js && js[j] in js;
    }
  }

  /** Joins two logs, the second from a point `q` of the first. */
  lemma BodyCat(a: seq<Event>, b: seq<Event>, q: Point, out: Point, X: Targets, p: Point, n: nat, k: nat, next: nat,
          m: Mode)
    requires Old(X, p, n) && OutOk(q, p, n, k) && OutOk(out, q, k, next)
    requires Body(a, q, X, p, n, k, m) && Body(b, out, X, q, k, next, m)
    ensures Body(a + b, out, X, p, n, next, m)
  {
    hide Linked, Flow;
    BodyCatLinked(a, b, q, out, X, p, n, k, next, m);
    BodyCatFlow(a, b, q, out, X, p, n, k, next, m);
  }

  lemma BodyCatLinked(a: seq<Event>, b: seq<Event>, q: Point, out: Point, X: Targets, p: Point, n: nat, k: nat,
          next: nat, m: Mode)
    requires Old(X, p, n) && OutOk(q, p, n, k) && OutOk(out, q, k, next)
    requires Body(a, q, X, p, n, k, m) && Body(b, out, X, q, k, next, m)
    ensures Linked(a + b, n, m)
  {
    hide Flow;
    assert Compat(a, b, m);
    assert Backs(b, n);
    LinkCat(a, b, n, m);
  }

  lemma BodyCatFlow(a: seq<Event>, b: seq<Event>, q: Point, out: Point, X: Targets, p: Point, n: nat, k: nat,
          next: nat, m: Mode)
    requires Old(X, p, n) && OutOk(q, p, n, k) && OutOk(out, q, k, next)
    requires Body(a, q, X, p, n, k, m) && Body(b, out, X, q, k, next, m)
    ensures Flow(a + b, out, p)
  {
    hide Linked, MarksIn, Frontier;
    forall blk | blk == q.block || k <= blk < next
      ensures Continues(a, p, q, blk)
    {
      if blk != q.block {
        FreshContinues(a, p, n, k, q, blk);
      }
    }
    FlowCat(a, b, out, p, q);
  }

  lemma GoodCat(f: Frag, g: Frag, X: Targets, p: Point, n: nat, m: Mode)
    requires Old(X, p, n) && Good(f, X, p, n, m) && Good(g, X, f.out, f.next, m)
    ensures Good(Cat(f, g), X, p, n, m)
  {
    BodyCat(f.log, g.log, f.out, g.out, X, p, n, f.next, g.next, m);
  }

  lemma GoodMono(f: Frag, X: Targets, Y: Targets, p: Point, n: nat, m: Mode)
    requires Good(f, X, p, n, m) && X <= Y
    ensures Good(f, Y, p, n, m)
  {
  }

  lemma GoodEnter(p: Point, n: nat, f: Frag, X: Targets, m: Mode)
    requires Old(X, p, n) && Good(f, X, Point(n, 0), n + 1, m)
    ensures Good(Enter(p, n, f), X, p, n, m)
  {
    hide Placed, AtEnd;
    var j := [Jump(p, n, false)];
    LinkJumps(j, n, m);
    assert Compat(j, f.log, m);
    assert Backs(f.log, n);
    LinkCat(j, f.log, n, m);
    EnterFlow(j, f.log, f.out, p, n, n + 1, f.next);
  }

  /** Edges from `p` and then a fragment that starts in the fresh block `n`. */
  lemma EnterFlow(js: seq<Event>, log: seq<Event>, out: Point, p: Point, n: nat, k: nat, next: nat)
    requires p.block < n < k && Flow(log, out, Point(n, 0)) && OutOk(out, Point(n, 0), k, next)
    requires forall ev :: ev in js ==> ev.Jump? && ev.src == p
    requires forall ev :: ev in log ==> From(ev, Point(n, 0), k, next)
    ensures Flow(js + log, out, p)
  {
    FlowEdges([], js, p, p);
    assert [] + js == js;
    forall blk | blk >= n
      ensures Continues(js, p, Point(n, 0), blk)
    {
      NoSteps(js, blk);
    }
    FlowCat(js, log, out, p, Point(n, 0));
  }

  /** The end of a block that the log may leave by an edge: current or fresh, and outside every side branch. */
  ghost predicate Leavable(log: seq<Event>, b: Point, p: Point, n: nat, m: nat) {
    OutOk(b, p, n, m) && AtEnd(log, b, p) && forall mk :: mk in log && mk.SinkMark? ==> !InMark(mk, b.block)
  }

  /** Forward edges from leavable blocks to the next block, or edges to outside targets. */
  ghost predicate Jumps(js: seq<Event>, log: seq<Event>, X: Targets, p: Point, n: nat, m: nat) {
    forall ev :: ev in js ==>
      ev.Jump? && Leavable(log, ev.src, p, n, m) && ((ev.dst == m && !ev.back) || (ev.dst, ev.back) in X)
  }

  lemma JumpsCat(js: seq<Event>, log: seq<Event>, out: Point, X: Targets, p: Point, n: nat, next: nat, m: Mode)
    requires Old(X, p, n) && Body(log, out, X, p, n, next, m) && Jumps(js, log, X, p, n, next)
    ensures Linked(log + js, n, m)
  {
    hide Flow, AtEnd;
    LinkJumps(js, n, m);
    assert Compat(log, js, m);
    LinkCat(log, js, n, m);
  }

  lemma GoodClose(f: Frag, js: seq<Event>, X: Targets, p: Point, n: nat, m: Mode)
    requires Old(X, p, n) && Good(f, X, p, n, m) && Jumps(js, f.log, X, p, n, f.next)
    ensures Good(Close(f, js), X, p, n, m)
  {
    JumpsCat(js, f.log, f.out, X, p, n, f.next, m);
    CloseFlow(f.log, js, f.out, X, p, n, f.next, m);
    hide Flow, Linked;
  }

  /** After the edges, execution goes on in the fresh block `next`. */
  lemma CloseFlow(log: seq<Event>, js: seq<Event>, out: Point, X: Targets, p: Point, n: nat, next: nat, m: Mode)
    requires Old(X, p, n) && Body(log, out, X, p, n, next, m) && Jumps(js, log, X, p, n, next)
    ensures Flow(log + js, Point(next, 0), p)
  {
    hide Linked, MarksIn, Frontier;
    NoSteps(log, next);
    FlowEdges(log, js, Point(next, 0), p);
  }

  /** Branches from `q` to the block `merge`: nothing else happens in the block of `q`. */
  ghost predicate Branches(g: Frag, X: Targets, q: Point, merge: nat, n: nat, m: Mode) {
    && g.out == Point(merge, 0)
    && Body(g.log, g.out, X + {(merge, false)}, q, n, g.next, m)
    && forall ev :: ev in g.log && ev.src.block == q.block ==> ev.Jump?
  }

  lemma GoodBranch(q: Point, merge: nat, n: nat, f: Frag, X: Targets, m: Mode)
    requires Old(X, q, n) && merge < n && merge != q.block && Good(f, X, Point(n, 0), n + 1, m)
    ensures Branches(Branch(q, merge, n, f), X, q, merge, n, m)
  {
    hide Linked, Flow;
    var Y := X + {(merge, false)};
    GoodMono(f, X, Y, Point(n, 0), n + 1, m);
    BranchLinked(q, merge, n, f, Y, m);
  }

  lemma BranchLinked(q: Point, merge: nat, n: nat, f: Frag, Y: Targets, m: Mode)
    requires Old(Y, q, n) && (merge, false) in Y && Good(f, Y, Point(n, 0), n + 1, m)
    ensures Linked([Jump(q, n, false)] + f.log + [Jump(f.out, merge, false)], n, m)
    ensures Flow([Jump(q, n, false)] + f.log + [Jump(f.out, merge, false)], Point(merge, 0), q)
  {
    hide Linked, Placed;
    GoodEnter(q, n, f, Y, m);
    var log := [Jump(q, n, false)] + f.log;
    JumpsCat([Jump(f.out, merge, false)], log, f.out, Y, q, n, f.next, m);
    BranchFlow(log, [Jump(f.out, merge, false)], f.out, merge, q);
  }

  lemma BranchFlow(log: seq<Event>, js: seq<Event>, out: Point, merge: nat, q: Point)
    requires Flow(log, out, q) && merge != q.block && js == [Jump(out, merge, false)]
    requires forall ev :: ev in log ==> ev.src.block != merge
    ensures Flow(log + js, Point(merge, 0), q)
  {
    NoSteps(log, merge);
    FlowEdges(log, js, Point(merge, 0), q);
  }

  lemma GoodBranchCat(f: Frag, g: Frag, X: Targets, q: Point, merge: nat, n: nat, m: Mode)
    requires Old(X, q, n) && merge < n && merge != q.block
    requires Branches(f, X, q, merge, n, m) && Branches(g, X, q, merge, f.next, m)
    ensures Branches(Cat(f, g), X, q, merge, n, m)
  {
    BranchCatLinked(f, g, X, q, merge, n, m);
    hide Linked;
    forall b | b == q.block || b >= f.next || b == merge
      ensures Continues(f.log, q, q, b)
    {
      NoSteps(f.log, b);
    }
    FlowCat(f.log, g.log, g.out, q, q);
    hide Flow;
  }

  lemma BranchCatLinked(f: Frag, g: Frag, X: Targets, q: Point, merge: nat, n: nat, m: Mode)
    requires Old(X, q, n) && merge < n && merge != q.block
    requires Branches(f, X, q, merge, n, m) && Branches(g, X, q, merge, f.next, m)
    ensures Linked(f.log + g.log, n, m)
  {
    hide Flow;
    assert Compat(f.log, g.log, m);
    assert Backs(g.log, n);
    LinkCat(f.log, g.log, n, m);
  }

  lemma MergeCompat(f: Frag, js: seq<Event>, g: Frag, q: Point, X: Targets, p: Point, n: nat, m: Mode)
    requires Old(X, p, n) && Good(f, X, p, n, m) && Jumps(js, f.log, X, p, n, f.next)
    requires Leavable(f.log, q, p, n, f.next) && Branches(g, X, q, f.next, f.next + 1, m)
    ensures Compat(f.log + js, g.log, m)
  {
    hide Flow, AtEnd;
    assert Compat(f.log, g.log, m);
    JumpsMergeCompat(f, js, g, q, X, p, n, m);
    CompatCat(f.log, js, g.log, m);
  }

  lemma JumpsMergeCompat(f: Frag, js: seq<Event>, g: Frag, q: Point, X: Targets, p: Point, n: nat, m: Mode)
    requires Old(X, p, n) && Good(f, X, p, n, m) && Jumps(js, f.log, X, p, n, f.next)
    requires Leavable(f.log, q, p, n, f.next) && Branches(g, X, q, f.next, f.next + 1, m)
    ensures Compat(js, g.log, m)
  {
    hide Flow, AtEnd;
    assert Cross(js, g.log, !m.open && !m.side);
    assert Pairs(g.log, js, m.exit);
  }

  lemma GoodMerge(f: Frag, js: seq<Event>, g: Frag, q: Point, X: Targets, p: Point, n: nat, m: Mode)
    requires Old(X, p, n) && Good(f, X, p, n, m) && Jumps(js, f.log, X, p, n, f.next)
    requires Leavable(f.log, q, p, n, f.next) && Branches(g, X, q, f.next, f.next + 1, m)
    ensures Good(Merge(f, js, g), X, p, n, m)
  {
    hide Linked, Flow;
    MergeLinked(f, js, g, q, X, p, n, m);
    MergeFlow(f, js, g, q, X, p, n, m);
  }

  lemma MergeLinked(f: Frag, js: seq<Event>, g: Frag, q: Point, X: Targets, p: Point, n: nat, m: Mode)
    requires Old(X, p, n) && Good(f, X, p, n, m) && Jumps(js, f.log, X, p, n, f.next)
    requires Leavable(f.log, q, p, n, f.next) && Branches(g, X, q, f.next, f.next + 1, m)
    ensures Linked(f.log + js + g.log, n, m)
  {
    hide Flow;
    MergeCompat(f, js, g, q, X, p, n, m);
    JumpsCat(js, f.log, f.out, X, p, n, f.next, m);
    assert Backs(g.log, n);
    LinkCat(f.log + js, g.log, n, m);
  }

  lemma MergeFlow(f: Frag, js: seq<Event>, g: Frag, q: Point, X: Targets, p: Point, n: nat, m: Mode)
    requires Old(X, p, n) && Good(f, X, p, n, m) && Jumps(js, f.log, X, p, n, f.next)
    requires Leavable(f.log, q, p, n, f.next) && Branches(g, X, q, f.next, f.next + 1, m)
    ensures Flow(f.log + js + g.log, Point(f.next, 0), p)
  {
    hide Linked, MarksIn, Frontier;
    FlowEdges(f.log, js, f.out, p);
    forall b | b == q.block || b >= f.next
      ensures Continues(f.log + js, p, q, b)
    {
      StepsCat(f.log, js, b);
      NoSteps(js, b);
      if b >= f.next {
        NoSteps(f.log, b);
      }
    }
    FlowCat(f.log + js, g.log, Point(f.next, 0), p, q);
  }

  /** `let-else` keeps everything but the frontier. */
  lemma GoodAside(f: Frag, g: Frag, X: Targets, p: Point, n: nat, m: Mode)
    requires m.open && Old(X, p, n) && Good(f, X, p, n, m) && Good(g, X, Point(f.next, 0), f.next + 1, m)
    ensures Good(Aside(f, g), X, p, n, m)
  {
    hide Linked, Flow;
    GoodEnter(f.out, f.next, g, X, m);
    var h := Enter(f.out, f.next, g);
    GoodCat(f, h, X, p, n, m);
    var a := f.log + [Jump(f.out, f.next, false)] + g.log;
    assert a == Cat(f, h).log;
    AsideFlow(f.log, h.log, h.out, f.out, p);
    FlowPass(a, f.out, p);
    LinkPass(a, f.out, n, m);
  }

  lemma FlowPass(log: seq<Event>, q: Point, p: Point)
    requires Flow(log, q, p)
    ensures Flow(log + [Step(q, None)], Point(q.block, q.off + 1), p)
  {
    var s := log + [Step(q, None)];
    forall i | 0 <= i < |s| && !IsMark(s[i])
      ensures AtEnd(s[..i], s[i].src, p)
    {
      assert s[..i] == if i < |log| then log[..i] else log;
    }
    assert s[..|s| - 1] == log;
  }

  lemma LinkPass(log: seq<Event>, q: Point, n: nat, m: Mode)
    requires m.open && Linked(log, n, m) && forall mk :: mk in log && mk.SinkMark? ==> !InMark(mk, q.block)
    ensures Linked(log + [Step(q, None)], n, m)
  {
    LinkCat(log, [Step(q, None)], n, m);
  }

  /** What branches off leaves the end of the current block where it was. */
  lemma AsideFlow(a: seq<Event>, b: seq<Event>, out: Point, q: Point, p: Point)
    requires Flow(a, q, p) && Flow(a + b, out, p)
    requires forall ev :: ev in b && ev.Step? ==> ev.src.block != q.block
    ensures Flow(a + b, q, p)
  {
    StepsCat(a, b, q.block);
    NoSteps(b, q.block);
  }

  lemma SideCompat(p: Point, n: nat, f: Frag, mk: Event, X: Targets, m: Mode)
    requires m.side && p.block < n && Good(f, X, Point(n, 0), n + 2, m.(open := true))
    requires forall x :: x in X ==> x.0 < n && x != (p.block, false)
    requires mk.SinkMark? && mk.src == Point(n, 0) && mk.lo == n + 2 && mk.hi == f.next &&
        (mk.closed ==> X <= {(m.exit, false)})
    ensures Compat([Jump(p, n, false), Jump(p, n + 1, false)], f.log, m)
    ensures Compat([Jump(p, n, false), Jump(p, n + 1, false)] + f.log, [mk], m)
  {
    hide Flow, AtEnd;
    var js := [Jump(p, n, false), Jump(p, n + 1, false)];
    assert Compat(js, f.log, m);
    assert Compat(js, [mk], m);
    assert Compat(f.log, [mk], m);
    CompatCat(js, f.log, [mk], m);
  }

  lemma GoodSide(p: Point, n: nat, f: Frag, nested: bool, closed: bool, X: Targets, Y: Targets, m: Mode)
    requires m.side && Old(Y, p, n) && X <= Y && (closed ==> X <= {(m.exit, false)})
    requires Good(f, X, Point(n, 0), n + 2, m.(open := true)) && (!m.open ==> Quiet(f.log))
    requires m.nest ==> nested
    ensures Good(Side(p, n, f, nested, closed), Y, p, n, m)
  {
    hide Linked, Flow;
    var mk := SinkMark(Point(n, 0), n + 2, f.next, nested, closed);
    SideLinked(p, n, f, mk, X, m);
    SideFlow(p, n, f, mk, X, m);
  }

  lemma SideLinked(p: Point, n: nat, f: Frag, mk: Event, X: Targets, m: Mode)
    requires m.side && p.block < n && Good(f, X, Point(n, 0), n + 2, m.(open := true)) && (!m.open ==> Quiet(f.log))
    requires forall x :: x in X ==> x.0 < n && x != (p.block, false)
    requires mk.SinkMark? && mk.src == Point(n, 0) && mk.lo == n + 2 && mk.hi == f.next &&
        (mk.closed ==> X <= {(m.exit, false)})
    requires m.nest ==> mk.nested
    ensures Linked([Jump(p, n, false), Jump(p, n + 1, false)] + f.log + [mk], n, m)
  {
    hide Flow;
    var js := [Jump(p, n, false), Jump(p, n + 1, false)];
    SideCompat(p, n, f, mk, X, m);
    LinkJumps(js, n, m);
    assert Backs(f.log, n);
    LinkCat(js, f.log, n, m);
    assert Linked([mk], n, m);
    LinkCat(js + f.log, [mk], n, m);
  }

  lemma SideFlow(p: Point, n: nat, f: Frag, mk: Event, X: Targets, m: Mode)
    requires p.block < n && Good(f, X, Point(n, 0), n + 2, m.(open := true)) && mk.SinkMark?
    ensures Flow([Jump(p, n, false), Jump(p, n + 1, false)] + f.log + [mk], Point(n + 1, 0), p)
  {
    hide Linked, MarksIn, Frontier;
    var js := [Jump(p, n, false), Jump(p, n + 1, false)];
    EnterFlow(js, f.log, f.out, p, n, n + 2, f.next);
    StepsCat(js, f.log, n + 1);
    NoSteps(js, n + 1);
    NoSteps(f.log, n + 1);
    FlowEdges(js + f.log, [mk], Point(n + 1, 0), p);
  }

  /** A loop head: the last block it mints is the merge block, which waits; the
      header `n` is the only way into the other blocks. */
  ghost predicate HeadOk(h: Frag, X: Targets, p: Point, n: nat, m: Mode) {
    && h.next >= n + 2
    && Body(h.log, h.out, X, p, n, h.next, m)
    && n <= h.out.block < h.next - 1
    && (forall ev :: ev in h.log ==> ev.src.block != h.next - 1)
    && (forall ev :: ev in h.log && ev.Jump? && n < ev.dst < h.next - 1 ==> n <= ev.src.block < h.next - 1)
    && (forall mk :: mk in h.log && mk.SinkMark? ==> !InMark(mk, h.next - 1) && !InMark(mk, n))
    && (forall mk :: mk in h.log && mk.LoopMark? ==> n < mk.src.block && mk.hi <= h.next - 1)
  }

  lemma GoodHeadLoop(p: Point, n: nat, r: Ren, X: Targets, m: Mode)
    requires Old(X, p, n)
    ensures HeadOk(Frag([Jump(p, n, false)], Point(n, 0), n + 2, r), X, p, n, m)
  {
    hide Placed, AtEnd;
    HeadStartFlow(p, n);
  }

  lemma HeadStartFlow(p: Point, n: nat)
    requires p.block < n
    ensures Flow([Jump(p, n, false)], Point(n, 0), p)
  {
    FlowEdges([], [Jump(p, n, false)], Point(n, 0), p);
    assert [] + [Jump(p, n, false)] == [Jump(p, n, false)];
  }

  lemma GoodHeadWhile(p: Point, n: nat, f: Frag, X: Targets, m: Mode)
    requires Old(X, p, n) && Good(f, X, Point(n, 0), n + 1, m)
    ensures HeadOk(Heading(p, n, f), X, p, n, m)
  {
    hide Linked, Flow;
    HeadWhileLinked(p, n, f, X, m);
    HeadWhilePlace(p, n, f, X, m, Heading(p, n, f).log);
    HeadWhileFlow(p, n, f, X, m);
  }

  lemma HeadWhileFlow(p: Point, n: nat, f: Frag, X: Targets, m: Mode)
    requires Old(X, p, n) && Good(f, X, Point(n, 0), n + 1, m)
    ensures Flow([Jump(p, n, false)] + f.log + [Jump(f.out, f.next, false), Jump(f.out, f.next + 1, false)],
        Point(f.next, 0), p)
  {
    hide Linked, MarksIn, Frontier;
    var j := [Jump(p, n, false)];
    EnterFlow(j, f.log, f.out, p, n, n + 1, f.next);
    NoSteps(j + f.log, f.next);
    FlowEdges(j + f.log, [Jump(f.out, f.next, false), Jump(f.out, f.next + 1, false)], Point(f.next, 0), p);
  }

  lemma HeadWhilePlace(p: Point, n: nat, f: Frag, X: Targets, m: Mode, log: seq<Event>)
    requires Old(X, p, n) && Good(f, X, Point(n, 0), n + 1, m)
    requires log == [Jump(p, n, false)] + f.log + [Jump(f.out, f.next, false), Jump(f.out, f.next + 1, false)]
    ensures Local(log, X, p, n, f.next + 2) && MarksIn(log, f.next, n, f.next + 2)
    ensures !m.open ==> Frontier(log, Point(f.next, 0))
    ensures forall ev :: ev in log ==> ev.src.block != f.next + 1
    ensures forall ev :: ev in log && ev.Jump? && n < ev.dst < f.next + 1 ==> n <= ev.src.block < f.next + 1
    ensures forall mk :: mk in log && mk.SinkMark? ==> !InMark(mk, f.next + 1) && !InMark(mk, n)
    ensures forall mk :: mk in log && mk.LoopMark? ==> n < mk.src.block && mk.hi <= f.next + 1
  {
    hide Flow, AtEnd;
  }

  lemma HeadWhileLinked(p: Point, n: nat, f: Frag, X: Targets, m: Mode)
    requires Old(X, p, n) && Good(f, X, Point(n, 0), n + 1, m)
    ensures Linked([Jump(p, n, false)] + f.log + [Jump(f.out, f.next, false), Jump(f.out, f.next + 1, false)], n, m)
  {
    hide Flow, AtEnd;
    GoodEnter(p, n, f, X, m);
    var js := [Jump(f.out, f.next, false), Jump(f.out, f.next + 1, false)];
    LinkJumps(js, n, m);
    var log := [Jump(p, n, false)] + f.log;
    assert Compat(log, js, m);
    LinkCat(log, js, n, m);
  }

  /** Adds the loop variables' markers at the head's end. */
  lemma GoodHeadDefs(k: Frag, d: Frag, X: Targets, p: Point, n: nat, m: Mode)
    requires Old(X, p, n) && HeadOk(k, X, p, n, m)
    requires d.next == k.next && d.out.block == k.out.block && d.out.off >= k.out.off
    requires forall ev :: ev in d.log ==> ev.Step? && ev.src.block == k.out.block && k.out.off <= ev.src.off < d.out.off
    requires Flow(d.log, d.out, k.out)
    ensures HeadOk(Cat(k, d), X, p, n, m)
  {
    hide Linked, Flow;
    StepsGood(d, k.out, k.next, X, m);
    BodyCat(k.log, d.log, k.out, d.out, X, p, n, k.next, k.next, m);
  }

  lemma EmptyGood(p: Point, n: nat, r: Ren, X: Targets, m: Mode)
    ensures Good(Frag([], p, n, r), X, p, n, m)
  {
  }

  lemma StepsGood(d: Frag, p: Point, n: nat, X: Targets, m: Mode)
    requires d.next == n && d.out.block == p.block && d.out.off >= p.off
    requires forall ev :: ev in d.log ==> ev.Step? && ev.src.block == p.block && p.off <= ev.src.off < d.out.off
    requires Flow(d.log, d.out, p)
    ensures Good(d, X, p, n, m)
  {
    hide Flow;
    forall i | 0 <= i < |d.log| ensures d.log[i].Step? { assert d.log[i] in d.log; }
  }

  lemma LoopCompat(n: nat, h: Frag, g: Frag, X: Targets, p: Point, m: Mode)
    requires Old(X, p, n) && HeadOk(h, X, p, n, m)
    requires Good(g, X + {(h.next - 1, false), (n, true)}, h.out, h.next, m)
    ensures Compat(h.log, g.log, m)
  {
    hide Flow, AtEnd;
  }

  lemma LoopEndCompat(n: nat, h: Frag, g: Frag, X: Targets, p: Point, m: Mode)
    requires Old(X, p, n) && HeadOk(h, X, p, n, m)
    requires Good(g, X + {(h.next - 1, false), (n, true)}, h.out, h.next, m)
    ensures Compat(h.log + g.log, [Jump(g.out, n, true), LoopMark(Point(n, 0), g.next, h.next - 1)], m)
  {
    hide Flow, AtEnd;
    var end := [Jump(g.out, n, true), LoopMark(Point(n, 0), g.next, h.next - 1)];
    LoopHeadEnd(n, h, g, X, p, m);
    assert Compat(g.log, end, m);
    CompatCat(h.log, g.log, end, m);
  }

  lemma LoopHeadEnd(n: nat, h: Frag, g: Frag, X: Targets, p: Point, m: Mode)
    requires Old(X, p, n) && HeadOk(h, X, p, n, m)
    requires Good(g, X + {(h.next - 1, false), (n, true)}, h.out, h.next, m)
    ensures Compat(h.log, [Jump(g.out, n, true), LoopMark(Point(n, 0), g.next, h.next - 1)], m)
  {
    hide Flow, AtEnd;
  }

  lemma GoodLoopBack(n: nat, h: Frag, g: Frag, r: Ren, X: Targets, p: Point, m: Mode)
    requires Old(X, p, n) && HeadOk(h, X, p, n, m)
    requires Good(g, X + {(h.next - 1, false), (n, true)}, h.out, h.next, m)
    ensures Good(LoopBack(n, h, g, r), X, p, n, m)
  {
    hide Linked;
    LoopLinked(n, h, g, X, p, m);
    LoopFlow(n, h, g, X, p, m);
    hide Flow;
    var log := h.log + g.log + [Jump(g.out, n, true), LoopMark(Point(n, 0), g.next, h.next - 1)];
    LoopPlace(n, h, g, X, p, m, log);
  }

  lemma LoopFlow(n: nat, h: Frag, g: Frag, X: Targets, p: Point, m: Mode)
    requires Old(X, p, n) && HeadOk(h, X, p, n, m)
    requires Good(g, X + {(h.next - 1, false), (n, true)}, h.out, h.next, m)
    ensures Flow(h.log + g.log + [Jump(g.out, n, true), LoopMark(Point(n, 0), g.next, h.next - 1)],
        Point(h.next - 1, 0), p)
  {
    hide Linked, MarksIn, Frontier;
    forall b | b == h.out.block || b >= h.next
      ensures Continues(h.log, p, h.out, b)
    {
      if b >= h.next {
        FreshContinues(h.log, p, n, h.next, h.out, b);
      }
    }
    FlowCat(h.log, g.log, g.out, p, h.out);
    NoSteps(h.log + g.log, h.next - 1);
    FlowEdges(h.log + g.log, [Jump(g.out, n, true), LoopMark(Point(n, 0), g.next, h.next - 1)], Point(h.next - 1, 0),
        p);
  }

  lemma LoopPlace(n: nat, h: Frag, g: Frag, X: Targets, p: Point, m: Mode, log: seq<Event>)
    requires Old(X, p, n) && HeadOk(h, X, p, n, m)
    requires Good(g, X + {(h.next - 1, false), (n, true)}, h.out, h.next, m)
    requires log == h.log + g.log + [Jump(g.out, n, true), LoopMark(Point(n, 0), g.next, h.next - 1)]
    ensures Local(log, X, p, n, g.next) && MarksIn(log, h.next - 1, n, g.next)
    ensures !m.open ==> Frontier(log, Point(h.next - 1, 0))
  {
    hide Flow, AtEnd;
  }

  lemma LoopLinked(n: nat, h: Frag, g: Frag, X: Targets, p: Point, m: Mode)
    requires Old(X, p, n) && HeadOk(h, X, p, n, m)
    requires Good(g, X + {(h.next - 1, false), (n, true)}, h.out, h.next, m)
    ensures Linked(h.log + g.log + [Jump(g.out, n, true), LoopMark(Point(n, 0), g.next, h.next - 1)], n, m)
  {
    hide Flow, AtEnd;
    var end := [Jump(g.out, n, true), LoopMark(Point(n, 0), g.next, h.next - 1)];
    LoopCompat(n, h, g, X, p, m);
    LoopEndCompat(n, h, g, X, p, m);
    var a := h.log + g.log;
    NoConfCat(h.log, g.log, !m.open && !m.side);
    NoConfCat(a, end, !m.open && !m.side);
    PairsCat(h.log, g.log, m.exit);
    PairsCat(a, end, m.exit);
    LoopBacks(n, h, g, X, p, m);
    if !m.open {
      QuietCat(h.log, g.log);
      QuietCat(a, end);
    }
  }

  lemma LoopBacks(n: nat, h: Frag, g: Frag, X: Targets, p: Point, m: Mode)
    requires Old(X, p, n) && HeadOk(h, X, p, n, m)
    requires Good(g, X + {(h.next - 1, false), (n, true)}, h.out, h.next, m)
    ensures Backs(h.log + g.log + [Jump(g.out, n, true), LoopMark(Point(n, 0), g.next, h.next - 1)], n)
  {
    hide Flow, AtEnd;
    var mk := LoopMark(Point(n, 0), g.next, h.next - 1);
    var end := [Jump(g.out, n, true), mk];
    var log := h.log + g.log + end;
    assert end[1] in end;
    assert mk in log;
    forall ev | ev in log && ev.Jump? && ev.back && ev.dst >= n
      ensures HasLoop(log, ev)
    {
      if ev.dst == n {
        assert InMark(mk, ev.src.block);
      } else if ev in h.log {
        var k :| k in h.log && k.LoopMark? && k.src.block == ev.dst && InMark(k, ev.src.block);
        assert k in log;
      } else {
        assert ev in g.log && ev.dst >= h.next;
        var k :| k in g.log && k.LoopMark? && k.src.block == ev.dst && InMark(k, ev.src.block);
        assert k in log;
      }
    }
  }
}
