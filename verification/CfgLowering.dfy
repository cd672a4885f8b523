/** The lowering of `CfgBuilder` in `src/cfg.rs` as a function. The result is
    the log of the builder's writes in order: uses recorded at a position of a
    block, and edges added from the current end of a block. */
module CfgLowering {
  import opened Options
  import opened CfgSyntax

  // ── Renaming state ───────────────────────────────────────────────

  datatype RenFrame = RenFrame(suffix: Suffix, names: set<string>)

  /** `cleanup_rename_stack`, `seen_names` and `next_cleanup_id`. */
  datatype Ren = Ren(stack: seq<RenFrame>, seen: set<string>, nextId: nat)

  function PushFrame(r: Ren, kind: SuffixKind): Ren {
    Ren(r.stack + [RenFrame(Tag(kind, r.nextId), {})], r.seen, r.nextId + 1)
  }

  function PopFrame(r: Ren): Ren
    requires r.stack != []
  {
    r.(stack := r.stack[..|r.stack| - 1])
  }

  /** `note_local_introduced`. */
  function Note(r: Ren, name: string): (r': Ren)
    ensures |r'.stack| == |r.stack|
  {
    var top := |r.stack| - 1;
    Ren(if top < 0 then [] else r.stack[top := r.stack[top].(names := r.stack[top].names + {name})],
        r.seen + {name}, r.nextId)
  }

  function NoteAll(names: seq<string>, r: Ren): (r': Ren)
    ensures |r'.stack| == |r.stack|
  {
    if names == [] then r else NoteAll(names[1..], Note(r, names[0]))
  }

  /** `mangle_binding`: the innermost frame that introduced the name decides. */
  function Mangle(stack: seq<RenFrame>, name: string): (id: Ident)
    ensures id.name == name
  {
    if stack == [] then Ident(name, Bare)
    else if name in stack[|stack| - 1].names then Ident(name, stack[|stack| - 1].suffix)
    else Mangle(stack[..|stack| - 1], name)
  }

  function Rename(r: Ren, u: UseSite): UseSite {
    u.(binding := Mangle(r.stack, u.binding.name))
  }

  predicate AnySeen(names: seq<string>, r: Ren) {
    exists i :: 0 <= i < |names| && names[i] in r.seen
  }

  /** The shadow rule of `let` and `let`-uninit. */
  function ShadowIfSeen(names: seq<string>, r: Ren): Ren {
    if AnySeen(names, r) then PushFrame(r, Sh) else r
  }

  // ── Blocks, edges and the log ────────────────────────────────────

  /** A position in a block: before the use with that index, or at the end. */
  datatype Point = Point(block: nat, off: nat)

  /** One write of the builder. `back` marks the edges the builder adds from a
      loop body's end or a `continue` to the loop header. Not writes are a step
      without a use, which goes past the branch of a let-else, and the two marks:
      `SinkMark` says that the side branch with the blocks `src.block`
      and `lo..hi` is complete, `LoopMark` that the loop with header
      `src.block`, merge block `hole` and the blocks up to `hi` is. */
  datatype Event =
    | Step(src: Point, use: Option<UseSite>)
    | Jump(src: Point, dst: nat, back: bool)
    | SinkMark(src: Point, lo: nat, hi: nat, nested: bool, closed: bool)
    | LoopMark(src: Point, hi: nat, hole: nat)

  /** The writes of one lowering, where execution goes on, the number of
      blocks minted so far and the renaming state. */
  datatype Frag = Frag(log: seq<Event>, out: Point, next: nat, ren: Ren)

  datatype LoopFrame = LoopFrame(lbl: Label, brk: nat, cont: nat, depth: nat)

  datatype Item = Item(err: bool, body: Block)

  datatype Ctx = Ctx(cl: Classification, exit: nat, loops: seq<LoopFrame>, frames: seq<seq<Item>>, inSink: bool)

  /** `resolve_loop_frame`, as an index: the innermost loop, or the innermost with that label. */
  function Resolve(loops: seq<LoopFrame>, lbl: Label): (i: Option<nat>)
    ensures i.Some? ==> i.value < |loops|
  {
    if loops == [] then None
    else if lbl == None || loops[|loops| - 1].lbl == lbl then Some(|loops| - 1)
    else Resolve(loops[..|loops| - 1], lbl)
  }

  // ── Unwinding order ──────────────────────────────────────────────

  function BodiesSize(bs: seq<Block>): nat {
    if bs == [] then 0 else 1 + SizeB(bs[0]) + BodiesSize(bs[1..])
  }

  function ItemsSize(items: seq<Item>): nat {
    if items == [] then 0 else ItemsSize(items[..|items| - 1]) + 1 + SizeB(items[|items| - 1].body)
  }

  function FramesSize(frames: seq<seq<Item>>): nat {
    if frames == [] then 0 else FramesSize(frames[..|frames| - 1]) + ItemsSize(frames[|frames| - 1])
  }

  /** Append, with what the functions above need of it. */
  function Push<T>(s: seq<T>, x: T): (r: seq<T>)
    ensures |r| == |s| + 1 && r[|s|] == x && r[..|s|] == s
  {
    s + [x]
  }

  /** The bodies of one kind, last registered first. */
  function Pick(items: seq<Item>, err: bool): seq<Block> {
    if items == [] then []
    else
      var last := items[|items| - 1];
      (if last.err == err then [last.body] else []) + Pick(items[..|items| - 1], err)
  }

  /** The bodies `emit_scope_cleanup` lowers for one frame. */
  function FrameBodies(items: seq<Item>, errorPath: bool): seq<Block> {
    (if errorPath then Pick(items, true) else []) + Pick(items, false)
  }

  /** The bodies `emit_unwind_chain` lowers: from the innermost frame down to `depth`. */
  function Bodies(frames: seq<seq<Item>>, depth: nat, errorPath: bool): seq<Block> {
    if |frames| <= depth then []
    else FrameBodies(frames[|frames| - 1], errorPath) + Bodies(frames[..|frames| - 1], depth, errorPath)
  }

  lemma {:induction false} BodiesSizeConcat(a: seq<Block>, b: seq<Block>)
    ensures BodiesSize(a + b) == BodiesSize(a) + BodiesSize(b)
  {
    if a == [] {
      assert a + b == b;
    } else {
      assert (a + b)[1..] == a[1..] + b;
      BodiesSizeConcat(a[1..], b);
    }
  }

  lemma {:induction false} PickSize(items: seq<Item>)
    ensures BodiesSize(Pick(items, true)) + BodiesSize(Pick(items, false)) == ItemsSize(items)
  {
    if items != [] {
      var last := items[|items| - 1];
      PickSize(items[..|items| - 1]);
      BodiesSizeConcat([last.body], Pick(items[..|items| - 1], last.err));
      assert BodiesSize([last.body]) == 1 + SizeB(last.body);
      assert Pick(items, !last.err) == Pick(items[..|items| - 1], !last.err);
    }
  }

  lemma FrameBodiesSize(items: seq<Item>, errorPath: bool)
    ensures BodiesSize(FrameBodies(items, errorPath)) <= ItemsSize(items)
  {
    PickSize(items);
    BodiesSizeConcat(Pick(items, true), Pick(items, false));
    assert [] + Pick(items, false) == Pick(items, false);
  }

  lemma {:induction false} BodiesSizeBound(frames: seq<seq<Item>>, depth: nat, errorPath: bool)
    ensures BodiesSize(Bodies(frames, depth, errorPath)) <= FramesSize(frames)
  {
    if |frames| > depth {
      var last := frames[|frames| - 1];
      BodiesSizeBound(frames[..|frames| - 1], depth, errorPath);
      FrameBodiesSize(last, errorPath);
      BodiesSizeConcat(FrameBodies(last, errorPath), Bodies(frames[..|frames| - 1], depth, errorPath));
    }
  }

  lemma PushSize(items: seq<Item>, it: Item)
    ensures ItemsSize(Push(items, it)) == ItemsSize(items) + 1 + SizeB(it.body)
  {
  }

  // ── Exits ────────────────────────────────────────────────────────

  /** How an evaluation ends: normally, or by leaving for a loop or the function. */
  datatype Outcome = Normal | Brk(lbl: Label) | Cont(lbl: Label) | Ret

  /** Where an exit goes: the cleanup bodies on the way, and the block reached. */
  datatype Target = Target(bodies: seq<Block>, dst: nat, back: bool)

  /** None for an unresolved label, for which the builder adds no edge. */
  function TargetOf(c: Ctx, o: Outcome): Option<Target>
    requires o != Normal
  {
    match o
    case Ret => Some(Target(Bodies(c.frames, 0, true), c.exit, false))
    case Brk(l) =>
      (match Resolve(c.loops, l)
       case None => None
       case Some(i) => Some(Target(Bodies(c.frames, c.loops[i].depth, false), c.loops[i].brk, false)))
    case Cont(l) =>
      (match Resolve(c.loops, l)
       case None => None
       case Some(i) => Some(Target(Bodies(c.frames, c.loops[i].depth, false), c.loops[i].cont, true)))
  }

  lemma TargetSize(c: Ctx, o: Outcome)
    requires o != Normal
    ensures TargetOf(c, o).Some? ==> BodiesSize(TargetOf(c, o).value.bodies) <= FramesSize(c.frames)
  {
    match o
    case Ret => BodiesSizeBound(c.frames, 0, true);
    case Brk(l) =>
      if Resolve(c.loops, l).Some? {
        BodiesSizeBound(c.frames, c.loops[Resolve(c.loops, l).value].depth, false);
      }
    case Cont(l) =>
      if Resolve(c.loops, l).Some? {
        BodiesSizeBound(c.frames, c.loops[Resolve(c.loops, l).value].depth, false);
      }
  }

  // ── Which loops an expression can leave for ──────────────────────

  function ResolveLabel(ls: seq<Label>, lbl: Label): (s: set<nat>)
    ensures forall i :: i in s ==> i < |ls|
  {
    if ls == [] then {}
    else if lbl == None || ls[|ls| - 1] == lbl then {|ls| - 1}
    else ResolveLabel(ls[..|ls| - 1], lbl)
  }

  function Below(s: set<nat>, k: nat): set<nat> {
    set i | i in s && i < k
  }

  /** The indices of the loops around `e`, named by their labels, that a
      `break` or `continue` in `e` can target. A cleanup body's are its own. */
  function LeavesE(e: Expr, ls: seq<Label>): set<nat> {
    match e
    case Leaf => {}
    case Use(_, _) => {}
    case Ops(_, es) => LeavesEs(es, ls)
    case BlockE(b) => LeavesB(b, ls)
    case If(_, cond, t, el) =>
      LeavesE(cond, ls) + LeavesB(t, ls) + (match el case None => {} case Some(x) => LeavesE(x, ls))
    case Match(s, arms) => LeavesE(s, ls) + LeavesArms(arms, ls)
    case While(l, cond, b) => LeavesE(cond, ls) + Below(LeavesB(b, ls + [l]), |ls|)
    case For(l, _, it, b) => LeavesE(it, ls) + Below(LeavesB(b, ls + [l]), |ls|)
    case Loop(l, b) => Below(LeavesB(b, ls + [l]), |ls|)
    case Break(l, v) => LeavesE(v, ls) + ResolveLabel(ls, l)
    case Continue(l) => ResolveLabel(ls, l)
    case Return(v) => LeavesE(v, ls)
    case Question(x) => LeavesE(x, ls)
    case Closure(x) => LeavesE(x, ls)
    case MethodCall(o, args) => LeavesE(o, ls) + LeavesArgs(args, ls)
  }

  function LeavesEs(es: Exprs, ls: seq<Label>): set<nat> {
    match es
    case ENil => {}
    case ECons(h, t) => LeavesE(h, ls) + LeavesEs(t, ls)
  }

  function LeavesArgs(args: Args, ls: seq<Label>): set<nat> {
    match args
    case ANil => {}
    case ACons(_, v, t) => LeavesE(v, ls) + LeavesArgs(t, ls)
  }

  /** The same for the sink arguments only. */
  function LeavesSinks(args: Args, cl: Classification, ls: seq<Label>): set<nat> {
    match args
    case ANil => {}
    case ACons(span, v, t) => (if span in cl.sinks then LeavesE(v, ls) else {}) + LeavesSinks(t, cl, ls)
  }

  function LeavesArms(arms: Arms, ls: seq<Label>): set<nat> {
    match arms
    case NoArm => {}
    case Arm(_, g, b, others) => LeavesE(g, ls) + LeavesE(b, ls) + LeavesArms(others, ls)
  }

  function LeavesB(b: Block, ls: seq<Label>): set<nat> {
    match b
    case Done(e) => LeavesE(e, ls)
    case Then(s, rest) => LeavesS(s, ls) + LeavesB(rest, ls)
  }

  function LeavesS(s: Stmt, ls: seq<Label>): set<nat> {
    match s
    case Let(_, v) => LeavesE(v, ls)
    case LetUninit(_) => {}
    case LetElse(_, v, b) => LeavesE(v, ls) + LeavesB(b, ls)
    case Defer(_) => {}
    case ErrDefer(_) => {}
    case Assign(t, v) => LeavesE(t, ls) + LeavesE(v, ls)
    case ExprStmt(e) => LeavesE(e, ls)
  }

  function Labels(loops: seq<LoopFrame>): (ls: seq<Label>)
    ensures |ls| == |loops|
  {
    seq(|loops|, i requires 0 <= i < |loops| => loops[i].lbl)
  }

  // ── Joining fragments ────────────────────────────────────────────

  /** One fragment, then the next from where it ended. */
  function Cat(f: Frag, g: Frag): Frag {
    Frag(f.log + g.log, g.out, g.next, g.ren)
  }

  /** Goes from `p` into the fresh block `n`, where `f` starts. */
  function Enter(p: Point, n: nat, f: Frag): Frag {
    f.(log := [Jump(p, n, false)] + f.log)
  }

  /** Adds edges and goes on in a fresh block. */
  function Close(f: Frag, jumps: seq<Event>): Frag {
    Frag(f.log + jumps, Point(f.next, 0), f.next + 1, f.ren)
  }

  /** A branch from `m` through the fresh block `n`, where `f` starts, to `merge`. */
  function Branch(m: Point, merge: nat, n: nat, f: Frag): Frag {
    Frag([Jump(m, n, false)] + f.log + [Jump(f.out, merge, false)], Point(merge, 0), f.next, f.ren)
  }

  /** Adds edges, then the branches `g`, which all lead to the block `f.next`. */
  function Merge(f: Frag, jumps: seq<Event>, g: Frag): Frag {
    Frag(f.log + jumps + g.log, Point(f.next, 0), g.next, g.ren)
  }

  /** Forks into the fresh side block `n`, where `f` starts, and goes on in block `n + 1`. */
  function Side(p: Point, n: nat, f: Frag, nested: bool, closed: bool): Frag {
    Frag([Jump(p, n, false), Jump(p, n + 1, false)] + f.log + [SinkMark(Point(n, 0), n + 2, f.next, nested, closed)],
         Point(n + 1, 0), f.next, f.ren)
  }

  /** From the header `n`, where the condition `f` starts, to the body block or the merge block. */
  function Heading(p: Point, n: nat, f: Frag): Frag {
    Frag([Jump(p, n, false)] + f.log + [Jump(f.out, f.next, false), Jump(f.out, f.next + 1, false)],
         Point(f.next, 0), f.next + 2, f.ren)
  }

  /** Closes the loop with header `n`, head `h` and body `g`. */
  function LoopBack(n: nat, h: Frag, g: Frag, r: Ren): Frag
    requires h.next > 0
  {
    Frag(h.log + g.log + [Jump(g.out, n, true), LoopMark(Point(n, 0), g.next, h.next - 1)],
         Point(h.next - 1, 0), g.next, r)
  }

  // ── Lowering ─────────────────────────────────────────────────────

  /** Notes each name a pattern introduces and records its Define marker at `p`. */
  function LowerDefs(names: seq<string>, span: nat, p: Point, n: nat, r: Ren): (f: Frag)
    ensures |f.ren.stack| == |r.stack| && f.next == n
    ensures f.out == Point(p.block, p.off + |names|)
    decreases |names|
  {
    if names == [] then Frag([], p, n, r)
    else
      var r1 := Note(r, names[0]);
      var f := LowerDefs(names[1..], span, Point(p.block, p.off + 1), n, r1);
      f.(log := [Step(p, Some(Rename(r1, DefineUse(names[0], span))))] + f.log)
  }

  /** How many steps the log adds to block `b`. */
  function Steps(log: seq<Event>, b: nat): nat {
    if log == [] then 0
    else Steps(log[..|log| - 1], b) + (if log[|log| - 1].Step? && log[|log| - 1].src.block == b then 1 else 0)
  }

  function LowerE(e: Expr, c: Ctx, p: Point, n: nat, r: Ren): (f: Frag)
    ensures |f.ren.stack| == |r.stack| && f.next >= n
    decreases SizeE(e) + FramesSize(c.frames), 1
  {
    match e
    case Leaf => Frag([], p, n, r)
    case Use(name, span) =>
      Frag([Step(p, Some(Rename(r, LeafUse(c.cl, name, span))))], Point(p.block, p.off + 1), n, r)
    case Ops(_, es) => LowerEs(es, c, p, n, r)
    case BlockE(b) => LowerBlock(b, c, p, n, r)
    case If(pat, cond, t, el) =>
      var f := LowerE(cond, c, p, n, r);
      var k := Cat(f, Enter(f.out, f.next, LowerThen(pat, t, c, f.next, f.ren)));
      (match el
       case None => Close(k, [Jump(k.out, k.next, false), Jump(f.out, k.next, false)])
       case Some(x) =>
         var h := LowerE(x, c, Point(k.next + 1, 0), k.next + 2, k.ren);
         Merge(k, [Jump(k.out, k.next, false)], Branch(f.out, k.next, k.next + 1, h)))
    case Match(s, arms) =>
      var f := LowerE(s, c, p, n, r);
      if arms.NoArm? then Close(f, [Jump(f.out, f.next, false)])
      else Merge(f, [], LowerArms(arms, c, f.out, f.next, f.next + 1, f.ren))
    case While(l, cond, b) => LowerLoop(Some(cond), None, l, b, c, p, n, r)
    case For(l, pat, it, b) =>
      var f := LowerE(it, c, p, n, r);
      Cat(f, LowerLoop(Some(Leaf), Some(pat), l, b, c, f.out, f.next, f.ren))
    case Loop(l, b) => LowerLoop(None, None, l, b, c, p, n, r)
    case Break(l, v) => LowerExit(LowerE(v, c, p, n, r), Brk(l), c)
    case Continue(l) => LowerExit(Frag([], p, n, r), Cont(l), c)
    case Return(v) => LowerExit(LowerE(v, c, p, n, r), Ret, c)
    case Question(x) =>
      var f := LowerE(x, c, p, n, r);
      var k := Cat(f, Unwind(Ret, c, f.out, f.next, f.ren));
      Close(k, [Jump(k.out, c.exit, false), Jump(f.out, k.next, false)])
    case Closure(x) =>
      Side(p, n, LowerE(x, c, Point(n, 0), n + 2, r), c.inSink, LeavesE(x, Labels(c.loops)) == {})
    case MethodCall(o, args) =>
      var f := LowerE(o, c, p, n, r);
      var k := Cat(f, LowerArgs(args, c, f.out, f.next, f.ren));
      if !HasSink(args, c.cl) then k
      else Cat(k, Side(k.out, k.next, LowerSinks(args, c.(inSink := true), Point(k.next, 0), k.next + 2, k.ren),
                       c.inSink, LeavesSinks(args, c.cl, Labels(c.loops)) == {}))
  }

  function LowerEs(es: Exprs, c: Ctx, p: Point, n: nat, r: Ren): (f: Frag)
    ensures |f.ren.stack| == |r.stack| && f.next >= n
    decreases SizeEs(es) + FramesSize(c.frames), 2
  {
    match es
    case ENil => Frag([], p, n, r)
    case ECons(h, t) =>
      var f := LowerE(h, c, p, n, r);
      Cat(f, LowerEs(t, c, f.out, f.next, f.ren))
  }

  /** The then-branch of `if` and `if let`, in the fresh block `n`. */
  function LowerThen(pat: Pat, t: Block, c: Ctx, n: nat, r: Ren): (f: Frag)
    ensures |f.ren.stack| == |r.stack| && f.next >= n + 1
    decreases SizeB(t) + FramesSize(c.frames), 4
  {
    var d := LowerDefs(pat.names, pat.span, Point(n, 0), n + 1, r);
    Cat(d, LowerBlock(t, c, d.out, n + 1, d.ren))
  }

  predicate HasSink(args: Args, cl: Classification) {
    match args
    case ANil => false
    case ACons(span, _, t) => span in cl.sinks || HasSink(t, cl)
  }

  /** The arguments that are not sink arguments, in order. */
  function LowerArgs(args: Args, c: Ctx, p: Point, n: nat, r: Ren): (f: Frag)
    ensures |f.ren.stack| == |r.stack| && f.next >= n
    decreases SizeArgs(args) + FramesSize(c.frames), 2
  {
    match args
    case ANil => Frag([], p, n, r)
    case ACons(span, v, t) =>
      if span in c.cl.sinks then LowerArgs(t, c, p, n, r)
      else
        var f := LowerE(v, c, p, n, r);
        Cat(f, LowerArgs(t, c, f.out, f.next, f.ren))
  }

  /** The sink arguments, each from the current end of the sink block `s.block`. */
  function LowerSinks(args: Args, c: Ctx, s: Point, n: nat, r: Ren): (f: Frag)
    ensures |f.ren.stack| == |r.stack| && f.next >= n
    decreases SizeArgs(args) + FramesSize(c.frames), 2
  {
    match args
    case ANil => Frag([], s, n, r)
    case ACons(span, v, t) =>
      if span !in c.cl.sinks then LowerSinks(t, c, s, n, r)
      else
        var f := LowerE(v, c, s, n, r);
        Cat(f, LowerSinks(t, c, Point(s.block, s.off + Steps(f.log, s.block)), f.next, f.ren))
  }

  /** The arms of a match, from the end `m` of the scrutinee to the block `merge`. */
  function LowerArms(arms: Arms, c: Ctx, m: Point, merge: nat, n: nat, r: Ren): (f: Frag)
    ensures |f.ren.stack| == |r.stack| && f.next >= n
    decreases SizeArms(arms) + FramesSize(c.frames), 2
  {
    match arms
    case NoArm => Frag([], Point(merge, 0), n, r)
    case Arm(pat, guard, body, others) =>
      var f := LowerArm(pat, guard, body, c, n, r);
      Cat(Branch(m, merge, n, f), LowerArms(others, c, m, merge, f.next, PopFrame(f.ren)))
  }

  /** One arm, in the fresh block `n`, within its own rename frame. */
  function LowerArm(pat: Pat, guard: Expr, body: Expr, c: Ctx, n: nat, r: Ren): (f: Frag)
    ensures |f.ren.stack| == |r.stack| + 1 && f.next >= n + 1
    decreases SizeE(guard) + SizeE(body) + 2 + FramesSize(c.frames), 3
  {
    var d := LowerDefs(pat.names, pat.span, Point(n, 0), n + 1, PushFrame(r, InArm));
    var g := LowerE(guard, c, d.out, n + 1, d.ren);
    Cat(d, Cat(g, LowerE(body, c, g.out, g.next, g.ren)))
  }

  function CondSize(cond: Option<Expr>): nat {
    match cond case None => 0 case Some(e) => SizeE(e)
  }

  /** A loop's header (block `n`), condition and variables. It ends where the
      body starts; the last block it mints is the merge block. Without a
      condition the body starts in the header. */
  function LowerHead(cond: Option<Expr>, pat: Option<Pat>, c: Ctx, p: Point, n: nat, r: Ren): (h: Frag)
    ensures |h.ren.stack| == |r.stack| + (if cond.Some? && pat.Some? then 1 else 0)
    ensures h.next >= n + 2
    decreases CondSize(cond) + FramesSize(c.frames), 2
  {
    match cond
    case None => Frag([Jump(p, n, false)], Point(n, 0), n + 2, r)
    case Some(e) =>
      var f := LowerE(e, c, Point(n, 0), n + 1, r);
      var k := Heading(p, n, f);
      match pat
      case None => k
      case Some(pt) => Cat(k, LowerDefs(pt.names, pt.span, k.out, k.next, PushFrame(k.ren, InFor)))
  }

  function InLoop(c: Ctx, lbl: Label, merge: nat, header: nat): Ctx {
    c.(loops := Push(c.loops, LoopFrame(lbl, merge, header, |c.frames|)))
  }

  /** `while` (a condition), `for` (the condition Leaf and a pattern) and `loop` (neither). */
  function LowerLoop(cond: Option<Expr>, pat: Option<Pat>, lbl: Label, b: Block, c: Ctx,
                     p: Point, n: nat, r: Ren): (f: Frag)
    ensures |f.ren.stack| == |r.stack| && f.next >= n + 2
    decreases CondSize(cond) + 2 + SizeB(b) + FramesSize(c.frames), 3
  {
    var h := LowerHead(cond, pat, c, p, n, r);
    var g := LowerBlock(b, InLoop(c, lbl, h.next - 1, n), h.out, h.next, h.ren);
    LoopBack(n, h, g, if cond.Some? && pat.Some? then PopFrame(g.ren) else g.ren)
  }

  /** The cleanup on the way of an exit. */
  function Unwind(o: Outcome, c: Ctx, p: Point, n: nat, r: Ren): (g: Frag)
    requires o != Normal && TargetOf(c, o).Some?
    ensures |g.ren.stack| == |r.stack| && g.next >= n
    decreases FramesSize(c.frames), 2
  {
    TargetSize(c, o);
    LowerChain(TargetOf(c, o).value.bodies, c, p, n, r)
  }

  /** The end of `break`, `continue` and `return`: unwind and leave; what
      follows goes into a fresh block without predecessors. */
  function LowerExit(f: Frag, o: Outcome, c: Ctx): (g: Frag)
    requires o != Normal
    ensures |g.ren.stack| == |f.ren.stack| && g.next >= f.next
    decreases FramesSize(c.frames), 3
  {
    match TargetOf(c, o)
    case None => Close(f, [])
    case Some(t) =>
      var k := Cat(f, Unwind(o, c, f.out, f.next, f.ren));
      Close(k, [Jump(k.out, t.dst, t.back)])
  }

  /** The context in which a cleanup body is lowered: its own exits stay inside it. */
  function CleanupCtx(c: Ctx): Ctx {
    c.(loops := [], frames := [])
  }

  /** Cleanup bodies, one after the other, each in a fresh block and rename frame. */
  function LowerChain(bs: seq<Block>, c: Ctx, p: Point, n: nat, r: Ren): (f: Frag)
    ensures |f.ren.stack| == |r.stack| && f.next >= n
    decreases BodiesSize(bs), 1
  {
    if bs == [] then Frag([], p, n, r)
    else
      var f := LowerBlock(bs[0], CleanupCtx(c), Point(n, 0), n + 1, PushFrame(r, Cu));
      Cat(Enter(p, n, f), LowerChain(bs[1..], c, f.out, f.next, PopFrame(f.ren)))
  }

  function LowerBlock(b: Block, c: Ctx, p: Point, n: nat, r: Ren): (f: Frag)
    ensures |f.ren.stack| == |r.stack| && f.next >= n
    decreases SizeB(b) + FramesSize(c.frames), 3
  {
    var f := LowerRest(b, [], c, p, n, r);
    f.(ren := f.ren.(stack := f.ren.stack[..|r.stack|]))
  }

  function InScope(c: Ctx, items: seq<Item>): Ctx {
    c.(frames := Push(c.frames, items))
  }

  lemma ScopeSize(c: Ctx, items: seq<Item>)
    ensures FramesSize(InScope(c, items).frames) == FramesSize(c.frames) + ItemsSize(items)
  {
  }

  /** The rest of a block whose scope has registered `items` so far. Its
      rename frames are dropped by the caller. */
  function LowerRest(b: Block, items: seq<Item>, c: Ctx, p: Point, n: nat, r: Ren): (f: Frag)
    ensures |f.ren.stack| >= |r.stack| && f.next >= n
    decreases SizeB(b) + ItemsSize(items) + FramesSize(c.frames), 2
  {
    match b
    case Done(e) =>
      var f := LowerE(e, InScope(c, items), p, n, r);
      FrameBodiesSize(items, false);
      Cat(f, LowerChain(FrameBodies(items, false), c, f.out, f.next, f.ren))
    case Then(s, rest) =>
      match s
      case Defer(body) => LowerRest(rest, Push(items, Item(false, body)), c, p, n, r)
      case ErrDefer(body) => LowerRest(rest, Push(items, Item(true, body)), c, p, n, r)
      case LetElse(pat, v, diverge) =>
        var f := LowerE(v, InScope(c, items), p, n, r);
        var g := LowerBlock(diverge, InScope(c, items), Point(f.next, 0), f.next + 1, NoteAll(pat.names, f.ren));
        var r1 := if AnySeen(pat.names, f.ren) then NoteAll(pat.names, PushFrame(g.ren, Sh)) else g.ren;
        var k := Aside(f, g);
        Cat(k, LowerRest(rest, items, c, k.out, k.next, r1))
      case _ =>
        var f := LowerPlain(s, InScope(c, items), p, n, r);
        Cat(f, LowerRest(rest, items, c, f.out, f.next, f.ren))
  }

  /** `let-else`: the diverging block `g` branches off, and the same block goes on. */
  function Aside(f: Frag, g: Frag): Frag {
    Frag(f.log + [Jump(f.out, f.next, false)] + g.log + [Step(f.out, None)], Point(f.out.block, f.out.off + 1), g.next,
        g.ren)
  }

  predicate IsPlain(s: Stmt) {
    !s.LetElse? && !s.Defer? && !s.ErrDefer?
  }

  /** A statement that evaluates an expression and then introduces names. */
  function LowerPlain(s: Stmt, c: Ctx, p: Point, n: nat, r: Ren): (f: Frag)
    requires IsPlain(s)
    ensures |f.ren.stack| >= |r.stack| && f.next >= n
    decreases SizeS(s) + FramesSize(c.frames), 2
  {
    StmtExprSize(s);
    var f := LowerE(StmtExpr(s), c, p, n, r);
    Cat(f, LowerIntro(s, f.out, f.next, f.ren))
  }

  /** The names a statement introduces after its expression. */
  function LowerIntro(s: Stmt, p: Point, n: nat, r: Ren): (f: Frag)
    requires IsPlain(s)
    ensures |f.ren.stack| >= |r.stack| && f.next == n
  {
    match s
    case Let(pat, _) => LowerDefs(pat.names, pat.span, p, n, ShadowIfSeen(pat.names, r))
    case LetUninit(name) => Frag([], p, n, Note(ShadowIfSeen([name], r), name))
    case _ => Frag([], p, n, r)
  }

  /** `build_cfg_with_classification`: block 0 is the entry and block 1 the exit. */
  function LowerBody(body: Block, cl: Classification, params: seq<string>): Frag {
    var f := LowerBlock(body, Ctx(cl, 1, [], [], false), Point(0, 0), 2,
                        Ren([], set i | 0 <= i < |params| :: params[i], 0));
    f.(log := f.log + [Jump(f.out, 1, false)])
  }
}
