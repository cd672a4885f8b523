/** The graph of a lowered function body: reducibility, and the dominance
    between side branches and later uses. */
module CfgDominance {
  import opened CfgSyntax
  import opened CfgLowering
  import opened CfgGood
  import opened CfgInvariant

  // ── Walks and dominance ──────────────────────────────────────────

  ghost predicate Edge(log: seq<Event>, a: nat, b: nat) {
    exists ev :: ev in log && ev.Jump? && ev.src.block == a && ev.dst == b
  }

  /** An edge that is neither a loop's back edge nor a `continue`. */
  ghost predicate Forward(log: seq<Event>, a: nat, b: nat) {
    exists ev :: ev in log && ev.Jump? && !ev.back && ev.src.block == a && ev.dst == b
  }

  ghost predicate Walk(log: seq<Event>, bs: seq<nat>) {
    bs != [] && forall i :: 0 <= i < |bs| - 1 ==> Edge(log, bs[i], bs[i + 1])
  }

  ghost predicate ForwardWalk(log: seq<Event>, bs: seq<nat>) {
    bs != [] && forall i :: 0 <= i < |bs| - 1 ==> Forward(log, bs[i], bs[i + 1])
  }

  ghost predicate WalkTo(log: seq<Event>, bs: seq<nat>, a: nat, b: nat) {
    Walk(log, bs) && bs[0] == a && bs[|bs| - 1] == b
  }

  ghost predicate Reachable(log: seq<Event>, b: nat) {
    exists bs :: WalkTo(log, bs, 0, b)
  }

  /** Every walk from the entry to `b` passes through `a`. */
  ghost predicate Dominates(log: seq<Event>, a: nat, b: nat) {
    forall bs :: WalkTo(log, bs, 0, b) ==> a in bs
  }

  /** A part of a walk is a walk. */
  lemma Part(log: seq<Event>, bs: seq<nat>, lo: nat, hi: nat)
    requires lo < hi <= |bs|
    ensures Walk(log, bs) ==> Walk(log, bs[lo..hi])
    ensures ForwardWalk(log, bs) ==> ForwardWalk(log, bs[lo..hi])
  {
    var part := bs[lo..hi];
    forall k | 0 <= k < |part| - 1
      ensures Walk(log, bs) ==> Edge(log, part[k], part[k + 1])
      ensures ForwardWalk(log, bs) ==> Forward(log, part[k], part[k + 1])
    {
      assert Walk(log, bs) ==> Edge(log, bs[lo + k], bs[lo + k + 1]);
      assert ForwardWalk(log, bs) ==> Forward(log, bs[lo + k], bs[lo + k + 1]);
    }
  }

  /** Forward edges into a block are logged before the edges out of it. */
  lemma InBeforeOut(log: seq<Event>, i: nat, j: nat)
    requires NoConf(log, false) && i < |log| && j < |log|
    requires log[i].Jump? && log[j].Jump? && !log[j].back && log[i].src.block == log[j].dst
    ensures j <= i
  {
  }

  /** Edges into a side branch are logged before its mark. */
  lemma InBeforeMark(log: seq<Event>, i: nat, j: nat)
    requires NoConf(log, false) && i < |log| && j < |log|
    requires log[i].SinkMark? && log[j].Jump? && InMark(log[i], log[j].dst)
    ensures j < i
  {
  }

  ghost predicate Acyclic(log: seq<Event>) {
    forall bs :: ForwardWalk(log, bs) && |bs| > 1 ==> bs[0] != bs[|bs| - 1]
  }

  // ── Reducibility ─────────────────────────────────────────────────

  /** Along forward edges the log position grows. */
  lemma {:induction false} Climb(log: seq<Event>, bs: seq<nat>) returns (i: nat, j: nat)
    requires NoConf(log, false) && ForwardWalk(log, bs) && |bs| > 1
    ensures i <= j < |log|
    ensures log[i].Jump? && log[i].src.block == bs[0] && !log[i].back
    ensures log[j].Jump? && log[j].dst == bs[|bs| - 1] && !log[j].back
    ensures |bs| == 2 ==> i == j
    decreases |bs|
  {
    assert Forward(log, bs[0], bs[1]);
    var ev :| ev in log && ev.Jump? && !ev.back && ev.src.block == bs[0] && ev.dst == bs[1];
    i :| 0 <= i < |log| && log[i] == ev;
    if |bs| == 2 {
      j := i;
    } else {
      var tail := bs[1..|bs|];
      Part(log, bs, 1, |bs|);
      var i1, j1 := Climb(log, tail);
      InBeforeOut(log, i1, i);
      j := j1;
    }
  }

  lemma NoForwardCycle(log: seq<Event>)
    requires NoConf(log, false) && NoSelf(log)
    ensures Acyclic(log)
  {
    forall bs | ForwardWalk(log, bs) && |bs| > 1
      ensures bs[0] != bs[|bs| - 1]
    {
      var i, j := Climb(log, bs);
      assert log[i] in log;
      if bs[0] == bs[|bs| - 1] {
        InBeforeOut(log, i, j);
      }
    }
  }

  /** A walk from the entry into a loop passes its header. */
  lemma {:induction false} ThroughHeader(log: seq<Event>, mk: Event, bs: seq<nat>, exit: nat)
    requires Pairs(log, log, exit) && mk in log && mk.LoopMark? && !InMark(mk, 0)
    requires Walk(log, bs) && bs[0] == 0 && InMark(mk, bs[|bs| - 1])
    ensures mk.src.block in bs
    decreases |bs|
  {
    var b := bs[|bs| - 1];
    if b != mk.src.block {
      assert |bs| > 1;
      var a := bs[|bs| - 2];
      assert Edge(log, bs[|bs| - 2], bs[|bs| - 2 + 1]);
      var ev :| ev in log && ev.Jump? && ev.src.block == a && ev.dst == b;
      assert PairOk(mk, ev, exit);
      var front := bs[0..|bs| - 1];
      Part(log, bs, 0, |bs| - 1);
      ThroughHeader(log, mk, front, exit);
    }
  }

  lemma HeaderDominates(log: seq<Event>, ev: Event, out: nat, next: nat, m: Mode)
    requires Linked(log, 2, m) && MarksIn(log, out, 2, next)
    requires ev in log && ev.Jump? && ev.back && ev.dst >= 2
    ensures Dominates(log, ev.dst, ev.src.block)
  {
    assert HasLoop(log, ev);
    var mk :| mk in log && mk.LoopMark? && mk.src.block == ev.dst && InMark(mk, ev.src.block);
    assert MarkIn(mk, out, 2, next);
    forall bs | WalkTo(log, bs, 0, ev.src.block)
      ensures ev.dst in bs
    {
      ThroughHeader(log, mk, bs, m.exit);
    }
  }

  /** The graph is reducible, for every body: without the back edges it has no
      cycle, the target of each back edge dominates its source, and the exit
      has no successor and no use. */
  lemma Reducible(body: Block, cl: Classification, params: seq<string>)
    ensures var log := LowerBody(body, cl, params).log;
      && Acyclic(log)
      && (forall ev :: ev in log && ev.Jump? && ev.back ==> Dominates(log, ev.dst, ev.src.block))
      && (forall ev :: ev in log ==> ev.src.block != 1)
  {
    var m := Mode(1, true, true, false);
    var f := LowerBody(body, cl, params);
    GoodLowering(body, cl, params, m);
    NoForwardCycle(f.log);
    forall ev | ev in f.log && ev.Jump? && ev.back
      ensures Dominates(f.log, ev.dst, ev.src.block)
    {
      HeaderDominates(f.log, ev, f.out.block, f.next, m);
    }
  }

  // ── Incomparability ──────────────────────────────────────────────

  ghost predicate Simple(bs: seq<nat>) {
    forall i, j :: 0 <= i < j < |bs| ==> bs[i] != bs[j]
  }

  /** Cutting out the cycles of a walk leaves a simple walk. */
  lemma {:induction false} Simplify(log: seq<Event>, bs: seq<nat>, a: nat, b: nat) returns (s: seq<nat>)
    requires WalkTo(log, bs, a, b)
    ensures WalkTo(log, s, a, b) && Simple(s)
    decreases |bs|
  {
    if Simple(bs) {
      s := bs;
    } else {
      var i, j :| 0 <= i < j < |bs| && bs[i] == bs[j];
      var cut := bs[..i] + bs[j..];
      assert WalkTo(log, cut, a, b) by {
        forall k | 0 <= k < |cut| - 1
          ensures Edge(log, cut[k], cut[k + 1])
        {
          if k < i - 1 {
            assert Edge(log, bs[k], bs[k + 1]);
          } else if k == i - 1 {
            assert cut[k] == bs[k] && cut[k + 1] == bs[j] == bs[i];
            assert Edge(log, bs[k], bs[k + 1]);
          } else {
            assert cut[k] == bs[k - i + j] && cut[k + 1] == bs[k - i + j + 1];
            assert Edge(log, bs[k - i + j], bs[k - i + j + 1]);
          }
        }
      }
      s := Simplify(log, cut, a, b);
    }
  }

  ghost predicate BacksDominated(log: seq<Event>) {
    forall ev :: ev in log && ev.Jump? && ev.back ==> Dominates(log, ev.dst, ev.src.block)
  }

  /** A simple walk from the entry uses no back edge. */
  lemma SimpleIsForward(log: seq<Event>, bs: seq<nat>)
    requires BacksDominated(log) && Walk(log, bs) && bs[0] == 0 && Simple(bs)
    ensures ForwardWalk(log, bs)
  {
    forall i | 0 <= i < |bs| - 1
      ensures Forward(log, bs[i], bs[i + 1])
    {
      assert Edge(log, bs[i], bs[i + 1]);
      var ev :| ev in log && ev.Jump? && ev.src.block == bs[i] && ev.dst == bs[i + 1];
      var front := bs[0..i + 1];
      Part(log, bs, 0, i + 1);
      assert WalkTo(log, front, 0, bs[i]);
      assert bs[i + 1] !in front;
    }
  }

  /** From a closed side branch only the exit can be reached. */
  lemma {:induction false} StaysInside(log: seq<Event>, mk: Event, bs: seq<nat>, exit: nat)
    requires Pairs(log, log, exit) && mk in log && mk.SinkMark? && mk.closed
    requires forall ev :: ev in log ==> ev.src.block != exit
    requires Walk(log, bs) && InMark(mk, bs[0])
    ensures InMark(mk, bs[|bs| - 1]) || bs[|bs| - 1] == exit
    decreases |bs|
  {
    if |bs| > 1 {
      assert Edge(log, bs[0], bs[0 + 1]);
      var ev :| ev in log && ev.Jump? && ev.src.block == bs[0] && ev.dst == bs[1];
      assert PairOk(mk, ev, exit);
      var tail := bs[1..|bs|];
      Part(log, bs, 1, |bs|);
      assert |bs| > 2 ==> Edge(log, bs[1], bs[1 + 1]);
      if bs[1] != exit {
        StaysInside(log, mk, tail, exit);
      }
    }
  }

  /** A forward walk into a side branch avoids every block used after it. */
  lemma AvoidsLater(log: seq<Event>, i: nat, j: nat, bs: seq<nat>)
    requires NoConf(log, false) && Quiet(log)
    requires i < j < |log| && log[i].SinkMark? && !log[i].nested && log[j].Step?
    requires ForwardWalk(log, bs) && InMark(log[i], bs[|bs| - 1])
    ensures log[j].src.block !in bs
  {
    var u := log[j].src.block;
    assert !Conf(log[i], log[j], false);
    if u in bs {
      var k :| 0 <= k < |bs| && bs[k] == u;
      var tail := bs[k..|bs|];
      Part(log, bs, k, |bs|);
      var i1, i2 := Climb(log, tail);
      InBeforeMark(log, i, i2);
      assert false;
    }
  }

  /** In a body without let-else: a reachable block of a closure body or of the
      sink arguments of a call (itself outside sink arguments, and left by no
      `break` or `continue`) and a reachable block with a use lowered later do
      not dominate each other, in loops as well. */
  lemma Incomparable(body: Block, cl: Classification, params: seq<string>, i: nat, j: nat, x: nat)
    requires FitsB(body, false, true, cl)
    requires i < j < |LowerBody(body, cl, params).log|
    requires LowerBody(body, cl, params).log[i].SinkMark? && LowerBody(body, cl, params).log[j].Step?
    requires !LowerBody(body, cl, params).log[i].nested && LowerBody(body, cl, params).log[i].closed
    requires InMark(LowerBody(body, cl, params).log[i], x)
    requires Reachable(LowerBody(body, cl, params).log, x)
    requires Reachable(LowerBody(body, cl, params).log, LowerBody(body, cl, params).log[j].src.block)
    ensures var log := LowerBody(body, cl, params).log;
      !Dominates(log, x, log[j].src.block) && !Dominates(log, log[j].src.block, x)
  {
    var f := LowerBody(body, cl, params);
    var log := f.log;
    var m := Mode(1, false, true, false);
    GoodLowering(body, cl, params, m);
    Reducible(body, cl, params);
    NoConfWeak(log);
    NotDominatedBySide(log, i, j, x);
    NotDominatingSide(log, i, j, x);
  }

  lemma NoConfWeak(log: seq<Event>)
    requires NoConf(log, false) || NoConf(log, true)
    ensures NoConf(log, false)
  {
    forall i, j | 0 <= i < j < |log|
      ensures !Conf(log[i], log[j], false)
    {
      assert !Conf(log[i], log[j], true) || !Conf(log[i], log[j], false);
    }
  }

  lemma NotDominatedBySide(log: seq<Event>, i: nat, j: nat, x: nat)
    requires NoConf(log, false) && Pairs(log, log, 1) && (forall ev :: ev in log ==> ev.src.block != 1)
    requires i < j < |log| && log[i].SinkMark? && log[i].closed && log[j].Step? && InMark(log[i], x)
    requires Reachable(log, log[j].src.block)
    ensures !Dominates(log, x, log[j].src.block)
  {
    var u := log[j].src.block;
    assert !Conf(log[i], log[j], false);
    var bs :| WalkTo(log, bs, 0, u);
    assert log[j] in log;
    if x in bs {
      var k :| 0 <= k < |bs| && bs[k] == x;
      var tail := bs[k..|bs|];
      Part(log, bs, k, |bs|);
      StaysInside(log, log[i], tail, 1);
      assert false;
    }
  }

  lemma NotDominatingSide(log: seq<Event>, i: nat, j: nat, x: nat)
    requires NoConf(log, false) && Quiet(log) && BacksDominated(log)
    requires i < j < |log| && log[i].SinkMark? && !log[i].nested && log[j].Step? && InMark(log[i], x)
    requires Reachable(log, x)
    ensures !Dominates(log, log[j].src.block, x)
  {
    var bs :| WalkTo(log, bs, 0, x);
    var s := Simplify(log, bs, 0, x);
    SimpleIsForward(log, s);
    AvoidsLater(log, i, j, s);
  }
}
