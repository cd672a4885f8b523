/** The call graph of `src/call_graph.rs`: how it is built from the bodies, and
    the traversals over it. */
module CallGraph {
  import opened Options
  import opened KeyOrder

  // ── Programs ─────────────────────────────────────────────────────

  /** Expressions and blocks, as far as calls are concerned. `Other` is any form
      of which the walk visits all parts, in order. */
  datatype Expr =
    | Ident(name: string)
    | FieldAccess(base: Expr, field: string)
    | Path(segments: seq<string>)
    | Call(callee: Expr, args: Exprs)
    | MethodCall(receiver: Expr, called: string, args: Exprs)  // also `?.` with arguments
    | Closure(code: Expr)
    | Hole                                                      // the place of the piped value
    | Pipe(left: Expr, right: Expr)                             // `left |> right`
    | Lock(mutex: Expr, body: Expr)                             // of which the walk visits the body
    | Other(parts: Exprs)

  datatype Exprs = ENil | ECons(head: Expr, tail: Exprs)

  datatype Method = Method(name: string, body: Option<Expr>)

  datatype Item =
    | Function(name: string, body: Expr)
    | Impl(receiver: string, methods: seq<Method>)
    | TraitDef(name: string, methods: seq<Method>)
    | OtherItem

  datatype NodeInfo = NodeInfo(key: string, isTest: bool)

  datatype Graph = Graph(nodes: map<string, NodeInfo>, forward: map<string, set<string>>, reverse: map<string,
          set<string>>)

  // ── Call sites ───────────────────────────────────────────────────

  /** `callee_key`. */
  function CalleeKey(e: Expr): Option<string> {
    match e
    case Ident(x) => Some(x)
    case FieldAccess(o, f) => if o.Ident? then Some(o.name + "." + f) else None
    case Path(s) => if |s| == 2 then Some(s[0] + "." + s[1]) else if |s| == 1 then Some(s[0]) else None
    case _ => None
  }

  /** A call site: a call of a named function, of a method whose receiver is known at
      run time only, or of anything else, such as a value. */
  datatype Site = Direct(key: string) | Dynamic(called: string) | Indirect(callee: Expr)

  /** What a call of `f` is. */
  function SiteOf(f: Expr): Site {
    match CalleeKey(f) case None => Indirect(f) case Some(k) => Direct(k)
  }

  /** The call sites that the walk finds. */
  function Sites(e: Expr): set<Site> {
    match e
    case Ident(_) => {}
    case FieldAccess(o, _) => Sites(o)
    case Path(_) => {}
    case Call(f, args) =>
      (match CalleeKey(f) case None => {} case Some(k) => {Direct(k)}) + Sites(f) + SitesAll(args)
    case MethodCall(o, m, args) => {Dynamic(m)} + Sites(o) + SitesAll(args)
    case Closure(c) => Sites(c)
    case Hole => {}
    case Pipe(l, r) => Sites(l) + Sites(r)
    case Lock(_, b) => Sites(b)
    case Other(parts) => SitesAll(parts)
  }

  function SitesAll(es: Exprs): set<Site> {
    match es
    case ENil => {}
    case ECons(h, t) => Sites(h) + SitesAll(t)
  }

  /** A stage that is called as it stands: a name, a path or a closure. */
  predicate Bare(stage: Expr) {
    stage.Ident? || stage.Path? || stage.Closure?
  }

  /** The call that a bare stage of a pipe stands for. */
  function StageSites(stage: Expr): set<Site> {
    if Bare(stage) then {SiteOf(stage)} else {}
  }

  /** All call sites. */
  function Complete(e: Expr): set<Site> {
    match e
    case Ident(_) => {}
    case FieldAccess(o, _) => Complete(o)
    case Path(_) => {}
    case Call(f, args) => {SiteOf(f)} + Complete(f) + CompleteAll(args)
    case MethodCall(o, m, args) => {Dynamic(m)} + Complete(o) + CompleteAll(args)
    case Closure(c) => Complete(c)
    case Hole => {}
    case Pipe(l, r) => StageSites(r) + Complete(l) + Complete(r)
    case Lock(x, b) => Complete(x) + Complete(b)
    case Other(parts) => CompleteAll(parts)
  }

  function CompleteAll(es: Exprs): set<Site> {
    match es
    case ENil => {}
    case ECons(h, t) => Complete(h) + CompleteAll(t)
  }

  /** The bare stages of pipes, the calls of callees without a key, and all call sites
      in operands of `lock`. */
  function Missed(e: Expr): set<Site> {
    match e
    case Ident(_) => {}
    case FieldAccess(o, _) => Missed(o)
    case Path(_) => {}
    case Call(f, args) => (if CalleeKey(f).None? then {Indirect(f)} else {}) + Missed(f) + MissedAll(args)
    case MethodCall(o, _, args) => Missed(o) + MissedAll(args)
    case Closure(c) => Missed(c)
    case Hole => {}
    case Pipe(l, r) => StageSites(r) + Missed(l) + Missed(r)
    case Lock(x, b) => Complete(x) + Missed(b)
    case Other(parts) => MissedAll(parts)
  }

  function MissedAll(es: Exprs): set<Site> {
    match es
    case ENil => {}
    case ECons(h, t) => Missed(h) + MissedAll(t)
  }

  /** Every call site is found, or is one of those. */
  lemma {:induction false} FoundOrMissed(e: Expr)
    ensures Complete(e) == Sites(e) + Missed(e)
  {
    match e
    case Ident(_) =>
    case Path(_) =>
    case Hole =>
    case FieldAccess(o, _) => FoundOrMissed(o);
    case Call(f, args) =>
      FoundOrMissed(f);
      FoundOrMissedAll(args);
    case MethodCall(o, _, args) =>
      FoundOrMissed(o);
      FoundOrMissedAll(args);
    case Closure(c) => FoundOrMissed(c);
    case Pipe(l, r) =>
      FoundOrMissed(l);
      FoundOrMissed(r);
    case Lock(x, b) =>
      FoundOrMissed(x);
      FoundOrMissed(b);
    case Other(parts) => FoundOrMissedAll(parts);
  }

  lemma {:induction false} FoundOrMissedAll(es: Exprs)
    ensures CompleteAll(es) == SitesAll(es) + MissedAll(es)
  {
    if es.ECons? {
      FoundOrMissed(es.head);
      FoundOrMissedAll(es.tail);
    }
  }

  // ── Pipes ────────────────────────────────────────────────────────

  predicate HasHole(args: Exprs) {
    match args case ENil => false case ECons(h, t) => h.Hole? || HasHole(t)
  }

  /** The arguments with the piped value in the place of each hole. */
  function Fill(args: Exprs, piped: Expr): Exprs {
    match args case ENil => ENil case ECons(h, t) => ECons(if h.Hole? then piped else h, Fill(t, piped))
  }

  /** `desugar_pipe`: the call that a pipe is defined to be. */
  function PipeCall(left: Expr, right: Expr): Option<Expr> {
    if Bare(right) then Some(Call(right, ECons(left, ENil)))
    else if right.Call? then
      Some(Call(right.callee, if HasHole(right.args) then Fill(right.args, left) else ECons(left, right.args)))
    else None
  }

  lemma {:induction false} FillSites(args: Exprs, piped: Expr)
    ensures CompleteAll(Fill(args, piped)) == CompleteAll(args) + (if HasHole(args) then Complete(piped) else {})
    ensures SitesAll(Fill(args, piped)) == SitesAll(args) + (if HasHole(args) then Sites(piped) else {})
  {
    if args.ECons? {
      FillSites(args.tail, piped);
    }
  }

  /** A pipe has the call sites of the call that it stands for. The walk over the pipe
      finds those that it would find in the call, but for the callee of a bare stage. */
  lemma PipeIsCall(left: Expr, right: Expr)
    requires PipeCall(left, right).Some?
    ensures var call := PipeCall(left, right).value;
      && Complete(Pipe(left, right)) == Complete(call)
      && Sites(call) == Sites(Pipe(left, right)) +
          (if Bare(right) && CalleeKey(right).Some? then {SiteOf(right)} else {})
  {
    if Bare(right) {
      assert CompleteAll(ECons(left, ENil)) == Complete(left) + {} && SitesAll(ECons(left, ENil)) == Sites(left) + {};
    } else {
      FillSites(right.args, left);
    }
  }

  /** The part of a key behind its first dot. */
  function MethodPart(key: string): Option<string> {
    if key == [] then None
    else if key[0] == '.' then Some(key[1..])
    else MethodPart(key[1..])
  }

  /** What a call site may run: a named function, any method of that name, or anything. */
  predicate MayCall(s: Site, key: string) {
    match s
    case Direct(k) => key == k
    case Dynamic(m) => MethodPart(key) == Some(m)
    case Indirect(_) => true
  }

  /** The known functions and methods that a body may call. */
  function Callees(e: Expr, known: set<string>): set<string> {
    set k | k in known && exists s :: s in Sites(e) && MayCall(s, k)
  }

  function CalleesAll(es: Exprs, known: set<string>): set<string> {
    set k | k in known && exists s :: s in SitesAll(es) && MayCall(s, k)
  }

  ghost predicate Step(edges: map<string, set<string>>, a: string, b: string) {
    a in edges && b in edges[a]
  }

  /** Method names with the known keys they may stand for. */
  ghost predicate Indexes(methods: map<string, set<string>>, known: set<string>) {
    forall m, k :: Step(methods, m, k) <==> k in known && MethodPart(k) == Some(m)
  }

  method Collect(e: Expr, known: set<string>, methods: map<string, set<string>>, found: set<string>)
    returns (out: set<string>)
    requires Indexes(methods, known)
    ensures out == found + Callees(e, known)
    decreases e
  {
    out := found;
    match e {
      case Ident(_) =>
      case Path(_) =>
      case FieldAccess(o, _) => out := Collect(o, known, methods, out);
      case Call(f, args) =>
        var key := CalleeKey(f);
        if key.Some? && key.value in known {
          out := out + {key.value};
        }
        out := Collect(f, known, methods, out);
        out := CollectAll(args, known, methods, out);
      case MethodCall(o, m, args) =>
        if m in methods {
          out := out + methods[m];
        }
        out := Collect(o, known, methods, out);
        out := CollectAll(args, known, methods, out);
      case Closure(c) => out := Collect(c, known, methods, out);
      case Hole =>
      case Pipe(l, r) =>
        out := Collect(l, known, methods, out);
        out := Collect(r, known, methods, out);
      case Lock(_, b) => out := Collect(b, known, methods, out);
      case Other(parts) => out := CollectAll(parts, known, methods, out);
    }
    CalleesParts(e, known);
  }

  /** The callees of an expression: those of its own call, and of its parts. */
  lemma CalleesParts(e: Expr, known: set<string>)
    ensures Callees(e, known) == match e
      case Ident(_) => {}
      case Path(_) => {}
      case FieldAccess(o, _) => Callees(o, known)
      case Call(f, args) =>
        (set k | k in known && CalleeKey(f) == Some(k)) + Callees(f, known) + CalleesAll(args, known)
      case MethodCall(o, m, args) =>
        (set k | k in known && MethodPart(k) == Some(m)) + Callees(o, known) + CalleesAll(args, known)
      case Closure(c) => Callees(c, known)
      case Hole => {}
      case Pipe(l, r) => Callees(l, known) + Callees(r, known)
      case Lock(_, b) => Callees(b, known)
      case Other(parts) => CalleesAll(parts, known)
  {
    match e
    case Call(f, _) =>
      if CalleeKey(f).Some? {
        assert MayCall(Direct(CalleeKey(f).value), CalleeKey(f).value);
        assert Direct(CalleeKey(f).value) in Sites(e);
      }
    case MethodCall(_, m, _) => assert Dynamic(m) in Sites(e);
    case _ =>
  }

  method CollectAll(es: Exprs, known: set<string>, methods: map<string, set<string>>, found: set<string>)
    returns (out: set<string>)
    requires Indexes(methods, known)
    ensures out == found + CalleesAll(es, known)
    decreases es
  {
    out := found;
    var rest := es;
    while rest.ECons?
      invariant out + CalleesAll(rest, known) == found + CalleesAll(es, known)
      invariant rest == es || rest < es
      decreases rest
    {
      out := Collect(rest.head, known, methods, out);
      rest := rest.tail;
    }
  }

  // ── Building ─────────────────────────────────────────────────────

  /** A body with the key of its function or method. */
  datatype Body = Body(key: string, isTest: bool, code: Expr)

  /** `is_test_file_test`. */
  predicate IsTest(name: string, testFile: bool) {
    testFile && "test_" <= name
  }

  function MethodBodies(owner: string, methods: seq<Method>, testFile: bool): seq<Body> {
    if methods == [] then []
    else MethodBodies(owner, methods[..|methods| - 1], testFile) + BodyOf(owner, methods[|methods| - 1], testFile)
  }

  function BodyOf(owner: string, m: Method, testFile: bool): seq<Body> {
    match m.body case None => [] case Some(b) => [Body(owner + "." + m.name, IsTest(m.name, testFile), b)]
  }

  function ItemBodies(item: Item, testFile: bool): seq<Body> {
    match item
    case Function(x, b) => [Body(x, IsTest(x, testFile), b)]
    case Impl(r, ms) => MethodBodies(r, ms, testFile)
    case TraitDef(x, ms) => MethodBodies(x, ms, false)
    case OtherItem => []
  }

  /** All bodies of a program, in order; methods of traits are never tests. */
  function Bodies(items: seq<Item>, testFile: bool): seq<Body> {
    if items == [] then []
    else Bodies(items[..|items| - 1], testFile) + ItemBodies(items[|items| - 1], testFile)
  }

  function Keys(bodies: seq<Body>): set<string> {
    set b | b in bodies :: b.key
  }

  /** The last body with a key. */
  function LastBody(bodies: seq<Body>, key: string): (b: Body)
    requires key in Keys(bodies)
    ensures b in bodies && b.key == key
  {
    var last := bodies[|bodies| - 1];
    if last.key == key then last
    else
      KeysSnoc(bodies[..|bodies| - 1], last, bodies);
      LastBody(bodies[..|bodies| - 1], key)
  }

  lemma KeysSnoc(front: seq<Body>, last: Body, bodies: seq<Body>)
    requires bodies == front + [last]
    ensures Keys(bodies) == Keys(front) + {last.key}
  {
  }

  ghost predicate SomeBodyCalls(bodies: seq<Body>, known: set<string>, key: string, callee: string) {
    exists b :: b in bodies && b.key == key && callee in Callees(b.code, known)
  }

  ghost predicate IsNodes(bodies: seq<Body>, nodes: map<string, NodeInfo>) {
    && nodes.Keys == Keys(bodies)
    && forall k :: k in nodes ==> nodes[k] == NodeInfo(k, LastBody(bodies, k).isTest)
  }

  ghost predicate IsForward(bodies: seq<Body>, known: set<string>, forward: map<string, set<string>>) {
    && forward.Keys == Keys(bodies)
    && forall k :: k in forward ==> forward[k] == Callees(LastBody(bodies, k).code, known)
  }

  ghost predicate IsReverse(bodies: seq<Body>, known: set<string>, reverse: map<string, set<string>>) {
    forall c, k :: Step(reverse, c, k) <==> SomeBodyCalls(bodies, known, k, c)
  }

  /** The graph of a program: the last body of a key decides its node and its
      callees; the callers of a key are those of all bodies. */
  ghost predicate IsGraph(bodies: seq<Body>, g: Graph) {
    && IsNodes(bodies, g.nodes)
    && IsForward(bodies, Keys(bodies), g.forward)
    && IsReverse(bodies, Keys(bodies), g.reverse)
  }

  lemma LastSnoc(front: seq<Body>, last: Body, key: string)
    requires key in Keys(front + [last])
    ensures key != last.key ==> key in Keys(front)
    ensures LastBody(front + [last], key) == if key == last.key then last else LastBody(front, key)
  {
    KeysSnoc(front, last, front + [last]);
    assert (front + [last])[..|front|] == front;
  }

  lemma NodesSnoc(front: seq<Body>, last: Body, nodes: map<string, NodeInfo>)
    requires IsNodes(front, nodes)
    ensures IsNodes(front + [last], nodes[last.key := NodeInfo(last.key, last.isTest)])
  {
    hide LastBody;
    KeysSnoc(front, last, front + [last]);
    forall k | k in Keys(front + [last]) { LastSnoc(front, last, k); }
  }

  lemma ForwardSnoc(front: seq<Body>, last: Body, known: set<string>, forward: map<string, set<string>>)
    requires IsForward(front, known, forward)
    ensures IsForward(front + [last], known, forward[last.key := Callees(last.code, known)])
  {
    hide LastBody, Callees;
    KeysSnoc(front, last, front + [last]);
    forall k | k in Keys(front + [last]) { LastSnoc(front, last, k); }
  }

  lemma ReverseSnoc(front: seq<Body>, last: Body, known: set<string>, r: map<string, set<string>>, r1: map<string,
          set<string>>)
    requires IsReverse(front, known, r)
    requires forall c, k :: Step(r1, c, k) <==> Step(r, c, k) || (c in Callees(last.code, known) && k == last.key)
    ensures IsReverse(front + [last], known, r1)
  {
    hide Callees;
    var bodies := front + [last];
    forall c, k
      ensures SomeBodyCalls(bodies, known, k, c) <==>
          SomeBodyCalls(front, known, k, c) || (c in Callees(last.code, known) && k == last.key)
    {
      assert last in bodies;
      forall b
        ensures b in bodies <==> b in front || b == last
      {
      }
    }
  }

  method Nodes(bodies: seq<Body>) returns (nodes: map<string, NodeInfo>)
    ensures IsNodes(bodies, nodes)
  {
    hide IsNodes;
    nodes := map[];
    NoBodies({});
    for i := 0 to |bodies|
      invariant IsNodes(bodies[..i], nodes)
    {
      assert bodies[..i + 1] == bodies[..i] + [bodies[i]];
      NodesSnoc(bodies[..i], bodies[i], nodes);
      nodes := nodes[bodies[i].key := NodeInfo(bodies[i].key, bodies[i].isTest)];
    }
    assert bodies[..|bodies|] == bodies;
  }

  lemma NoBodies(known: set<string>)
    ensures IsNodes([], map[]) && IsForward([], known, map[]) && IsReverse([], known, map[])
  {
  }

  method Index(known: set<string>) returns (methods: map<string, set<string>>)
    ensures Indexes(methods, known)
  {
    methods := map[];
    var rest := known;
    while rest != {}
      invariant rest <= known && Indexes(methods, known - rest)
      decreases |rest|
    {
      var k :| k in rest;
      var m := MethodPart(k);
      if m.Some? {
        methods := AddTo(methods, m.value, k);
      }
      rest := rest - {k};
    }
  }

  /** Adds a member to the set kept under a key. */
  function AddTo(sets: map<string, set<string>>, key: string, x: string): (r: map<string, set<string>>)
    ensures forall c, k :: Step(r, c, k) <==> Step(sets, c, k) || (c == key && k == x)
  {
    sets[key := (if key in sets then sets[key] else {}) + {x}]
  }

  /** Adds one caller to each of the callees. */
  method AddCaller(reverse: map<string, set<string>>, callees: set<string>, key: string)
    returns (r: map<string, set<string>>)
    ensures forall c, k :: Step(r, c, k) <==> Step(reverse, c, k) || (c in callees && k == key)
  {
    r := reverse;
    var rest := callees;
    while rest != {}
      invariant rest <= callees
      invariant forall c, k :: Step(r, c, k) <==> Step(reverse, c, k) || (c in callees - rest && k == key)
      decreases |rest|
    {
      var c :| c in rest;
      r := AddTo(r, c, key);
      rest := rest - {c};
    }
  }

  // ── What a program defines and calls ─────────────────────────────

  /** Item `i` defines `key` by its method `j`, or as a function with `j` being 0. */
  predicate DefinesMethod(owner: string, methods: seq<Method>, testFile: bool, j: nat, b: Body) {
    && j < |methods| && b.key == owner + "." + methods[j].name && methods[j].body == Some(b.code)
    && (b.isTest <==> testFile && "test_" <= methods[j].name)
  }

  predicate Defines(items: seq<Item>, testFile: bool, i: nat, j: nat, b: Body) {
    i < |items| && match items[i]
      case Function(x, code) => j == 0 && b.key == x && b.code == code && (b.isTest <==> testFile && "test_" <= x)
      case Impl(r, ms) => DefinesMethod(r, ms, testFile, j, b)
      case TraitDef(x, ms) => DefinesMethod(x, ms, false, j, b)
      case OtherItem => false
  }

  /** No later definition has the key. */
  ghost predicate DefinesLast(items: seq<Item>, testFile: bool, i: nat, j: nat, b: Body) {
    && Defines(items, testFile, i, j, b)
    && forall i2: nat, j2: nat, b2 :: Defines(items, testFile, i2, j2, b2) && b2.key == b.key ==>
         i2 < i || (i2 == i && j2 <= j)
  }

  /** `x` stands in `e`, outside operands of `lock`. */
  predicate Part(x: Expr, e: Expr) {
    x == e || match e
    case Ident(_) => false
    case FieldAccess(o, _) => Part(x, o)
    case Path(_) => false
    case Call(f, args) => Part(x, f) || PartOf(x, args)
    case MethodCall(o, _, args) => Part(x, o) || PartOf(x, args)
    case Closure(c) => Part(x, c)
    case Hole => false
    case Pipe(l, r) => Part(x, l) || Part(x, r)
    case Lock(_, b) => Part(x, b)
    case Other(parts) => PartOf(x, parts)
  }

  predicate PartOf(x: Expr, es: Exprs) {
    match es case ENil => false case ECons(h, t) => Part(x, h) || PartOf(x, t)
  }

  /** The name, path or field access stands for the key. */
  ghost predicate Names(f: Expr, key: string) {
    || f == Ident(key) || f == Path([key])
    || exists t, m :: key == t + "." + m && (f == Path([t, m]) || f == FieldAccess(Ident(t), m))
  }

  /** The call names the key, or calls a method of some type by the key's method name. */
  ghost predicate CallOf(x: Expr, key: string) {
    || (x.Call? && Names(x.callee, key))
    || (x.MethodCall? && exists t :: '.' !in t && key == t + "." + x.called)
  }

  ghost predicate HasCall(e: Expr, key: string) {
    exists x :: Part(x, e) && CallOf(x, key)
  }

  /** The graph of a program, from the items themselves: a node for each definition, with
      the test flag of the last; an edge to each known key that the last body has a call of;
      and the callers that some body has. */
  ghost predicate Describes(items: seq<Item>, testFile: bool, g: Graph) {
    && (forall k :: k in g.nodes <==> exists i, j, b :: Defines(items, testFile, i, j, b) && b.key == k)
    && (forall i, j, b :: DefinesLast(items, testFile, i, j, b) ==>
          && g.nodes[b.key] == NodeInfo(b.key, b.isTest)
          && forall t :: Step(g.forward, b.key, t) <==> t in g.nodes && HasCall(b.code, t))
    && (forall t, k :: Step(g.reverse, t, k) <==>
          t in g.nodes && exists i, j, b :: Defines(items, testFile, i, j, b) && b.key == k && HasCall(b.code, t))
  }

  lemma DotHead(t: string, m: string)
    ensures t != "" ==> (t + "." + m)[0] == t[0] && (t + "." + m)[1..] == t[1..] + "." + m
    ensures t == "" ==> (t + "." + m)[0] == '.' && (t + "." + m)[1..] == m
  {
  }

  lemma {:induction false} MethodPartIs(key: string, m: string)
    ensures MethodPart(key) == Some(m) <==> exists t :: '.' !in t && key == t + "." + m
  {
    if key != [] {
      if key[0] == '.' {
        assert key == "" + "." + key[1..];
        forall t | '.' !in t && key == t + "." + m
          ensures m == key[1..]
        {
          DotHead(t, m);
        }
      } else {
        MethodPartIs(key[1..], m);
        if t :| '.' !in t && key[1..] == t + "." + m {
          assert key == ([key[0]] + t) + "." + m && '.' !in [key[0]] + t;
        }
        if t :| '.' !in t && key == t + "." + m {
          DotHead(t, m);
          assert key[1..] == t[1..] + "." + m && '.' !in t[1..];
        }
      }
    }
  }

  lemma CalleeKeyIs(f: Expr, key: string)
    ensures CalleeKey(f) == Some(key) <==> Names(f, key)
  {
    match f
    case FieldAccess(o, m) => if o.Ident? { assert CalleeKey(f) == Some(key) ==> key == o.name + "." + m; }
    case Path(p) =>
      if |p| == 2 {
        assert p == [p[0], p[1]];
      } else if |p| == 1 {
        assert p == [p[0]];
      }
    case _ =>
  }

  /** A call of the key is a call site found, and the other way round. */
  lemma {:induction false} FoundCalls(e: Expr, key: string)
    ensures (exists s :: s in Sites(e) && MayCall(s, key)) <==> HasCall(e, key)
    decreases e, 0
  {
    hide Names, MethodPart;
    PartStep(e, key);
    match e
    case Ident(_) =>
    case Path(_) =>
    case Hole =>
    case FieldAccess(o, _) => FoundCalls(o, key);
    case Call(f, args) =>
      CalleeKeyIs(f, key);
      FoundCalls(f, key);
      FoundCallsAll(args, key);
      SiteStep(e, key);
    case MethodCall(o, m, args) =>
      MethodPartIs(key, m);
      FoundCalls(o, key);
      FoundCallsAll(args, key);
      SiteStep(e, key);
    case Closure(c) => FoundCalls(c, key);
    case Pipe(l, r) =>
      FoundCalls(l, key);
      FoundCalls(r, key);
    case Lock(_, b) => FoundCalls(b, key);
    case Other(parts) => FoundCallsAll(parts, key);
  }

  ghost predicate HasCallIn(es: Exprs, key: string) {
    exists x :: PartOf(x, es) && CallOf(x, key)
  }

  lemma {:induction false} FoundCallsAll(es: Exprs, key: string)
    ensures (exists s :: s in SitesAll(es) && MayCall(s, key)) <==> HasCallIn(es, key)
    decreases es, 0
  {
    hide Names, MethodPart, CallOf;
    if es.ECons? {
      FoundCalls(es.head, key);
      FoundCallsAll(es.tail, key);
      assert HasCallIn(es, key) <==> HasCall(es.head, key) || HasCallIn(es.tail, key) by {
        if HasCall(es.head, key) {
          var x :| Part(x, es.head) && CallOf(x, key);
          assert PartOf(x, es);
        }
        if HasCallIn(es.tail, key) {
          var x :| PartOf(x, es.tail) && CallOf(x, key);
          assert PartOf(x, es);
        }
      }
    }
  }

  lemma SiteStep(e: Expr, key: string)
    requires e.Call? || e.MethodCall?
    ensures (exists s :: s in Sites(e) && MayCall(s, key)) <==>
      || (e.Call? && CalleeKey(e.callee) == Some(key)) || (e.MethodCall? && MethodPart(key) == Some(e.called))
      || (exists s :: s in Sites(if e.Call? then e.callee else e.receiver) && MayCall(s, key))
      || (exists s :: s in SitesAll(e.args) && MayCall(s, key))
  {
    hide CalleeKey, MethodPart;
    if e.Call? && CalleeKey(e.callee) == Some(key) {
      assert Direct(key) in Sites(e) && MayCall(Direct(key), key);
    }
    if e.MethodCall? && MethodPart(key) == Some(e.called) {
      assert Dynamic(e.called) in Sites(e) && MayCall(Dynamic(e.called), key);
    }
  }

  /** A call in an expression is the expression or in one of its parts. */
  lemma PartStep(e: Expr, key: string)
    ensures HasCall(e, key) <==> CallOf(e, key) || match e
      case Ident(_) => false
      case FieldAccess(o, _) => HasCall(o, key)
      case Path(_) => false
      case Call(f, args) => HasCall(f, key) || HasCallIn(args, key)
      case MethodCall(o, _, args) => HasCall(o, key) || HasCallIn(args, key)
      case Closure(c) => HasCall(c, key)
      case Hole => false
      case Pipe(l, r) => HasCall(l, key) || HasCall(r, key)
      case Lock(_, b) => HasCall(b, key)
      case Other(parts) => HasCallIn(parts, key)
  {
    hide CallOf;
    if CallOf(e, key) {
      assert Part(e, e);
    }
    PartUp(e, key);
  }

  lemma PartUp(e: Expr, key: string)
    ensures e.FieldAccess? && HasCall(e.base, key) ==> HasCall(e, key)
    ensures e.Call? && (HasCall(e.callee, key) || HasCallIn(e.args, key)) ==> HasCall(e, key)
    ensures e.MethodCall? && (HasCall(e.receiver, key) || HasCallIn(e.args, key)) ==> HasCall(e, key)
    ensures e.Closure? && HasCall(e.code, key) ==> HasCall(e, key)
    ensures e.Pipe? && (HasCall(e.left, key) || HasCall(e.right, key)) ==> HasCall(e, key)
    ensures e.Lock? && HasCall(e.body, key) ==> HasCall(e, key)
    ensures e.Other? && HasCallIn(e.parts, key) ==> HasCall(e, key)
  {
    hide CallOf;
    forall x | CallOf(x, key)
      ensures e.FieldAccess? && Part(x, e.base) ==> HasCall(e, key)
      ensures e.Call? && (Part(x, e.callee) || PartOf(x, e.args)) ==> HasCall(e, key)
      ensures e.MethodCall? && (Part(x, e.receiver) || PartOf(x, e.args)) ==> HasCall(e, key)
      ensures e.Closure? && Part(x, e.code) ==> HasCall(e, key)
      ensures e.Pipe? && (Part(x, e.left) || Part(x, e.right)) ==> HasCall(e, key)
      ensures e.Lock? && Part(x, e.body) ==> HasCall(e, key)
      ensures e.Other? && PartOf(x, e.parts) ==> HasCall(e, key)
    {
      assert Part(x, e) ==> HasCall(e, key);
    }
  }

  // ── The bodies are those defined ─────────────────────────────────

  lemma {:induction false} MethodsDefined(owner: string, ms: seq<Method>, testFile: bool, b: Body)
    ensures b in MethodBodies(owner, ms, testFile) <==> exists j :: DefinesMethod(owner, ms, testFile, j, b)
  {
    if ms != [] {
      var n := |ms| - 1;
      MethodsDefined(owner, ms[..n], testFile, b);
      forall j: nat | j < n
        ensures DefinesMethod(owner, ms, testFile, j, b) <==> DefinesMethod(owner, ms[..n], testFile, j, b)
      {
        assert ms[j] == ms[..n][j];
      }
      assert b in BodyOf(owner, ms[n], testFile) <==> DefinesMethod(owner, ms, testFile, n, b);
    }
  }

  lemma ItemDefined(items: seq<Item>, testFile: bool, i: nat, b: Body)
    requires i < |items|
    ensures b in ItemBodies(items[i], testFile) <==> exists j :: Defines(items, testFile, i, j, b)
  {
    match items[i]
    case Function(_, _) => assert Defines(items, testFile, i, 0, b) <==> b in ItemBodies(items[i], testFile);
    case Impl(r, ms) =>
      MethodsDefined(r, ms, testFile, b);
      if j: nat :| DefinesMethod(r, ms, testFile, j, b) { assert Defines(items, testFile, i, j, b); }
    case TraitDef(x, ms) =>
      MethodsDefined(x, ms, false, b);
      if j: nat :| DefinesMethod(x, ms, false, j, b) { assert Defines(items, testFile, i, j, b); }
    case OtherItem =>
  }

  lemma DefinesFront(items: seq<Item>, testFile: bool, i: nat, j: nat, b: Body)
    requires i < |items| - 1
    ensures Defines(items, testFile, i, j, b) <==> Defines(items[..|items| - 1], testFile, i, j, b)
  {
    assert items[i] == items[..|items| - 1][i];
  }

  lemma {:induction false} AllDefined(items: seq<Item>, testFile: bool, b: Body)
    ensures b in Bodies(items, testFile) <==> exists i, j :: Defines(items, testFile, i, j, b)
  {
    hide Defines, ItemBodies;
    if items == [] {
      NoneDefined(testFile, b);
    } else {
      var n := |items| - 1;
      AllDefined(items[..n], testFile, b);
      ItemDefined(items, testFile, n, b);
      forall i: nat, j | i < n
        ensures Defines(items, testFile, i, j, b) <==> Defines(items[..n], testFile, i, j, b)
      {
        DefinesFront(items, testFile, i, j, b);
      }
      forall i: nat, j | i >= n
        ensures Defines(items, testFile, i, j, b) ==> i == n
        ensures !Defines(items[..n], testFile, i, j, b)
      {
        InRange(items, testFile, i, j, b);
        InRange(items[..n], testFile, i, j, b);
      }
    }
  }

  lemma NoneDefined(testFile: bool, b: Body)
    ensures forall i, j :: !Defines([], testFile, i, j, b)
  {
  }

  lemma InRange(items: seq<Item>, testFile: bool, i: nat, j: nat, b: Body)
    ensures Defines(items, testFile, i, j, b) ==> i < |items|
  {
  }

  lemma KeysAre(bodies: seq<Body>, k: string)
    ensures k in Keys(bodies) <==> exists b :: b in bodies && b.key == k
  {
  }

  /** The last body of a key in two lists. */
  lemma {:induction false} LastOfTwo(a: seq<Body>, b: seq<Body>, k: string)
    requires k in Keys(a + b)
    ensures k in Keys(b) ==> LastBody(a + b, k) == LastBody(b, k)
    ensures k !in Keys(b) ==> k in Keys(a) && LastBody(a + b, k) == LastBody(a, k)
    decreases |b|
  {
    hide LastBody;
    if b == [] {
      assert a + b == a;
    } else {
      var front, last := b[..|b| - 1], b[|b| - 1];
      assert a + b == (a + front) + [last] && b == front + [last];
      KeysSnoc(front, last, b);
      KeysSnoc(a + front, last, a + b);
      LastSnoc(a + front, last, k);
      if k in Keys(b) {
        LastSnoc(front, last, k);
      }
      if k != last.key {
        LastOfTwo(a, front, k);
      }
    }
  }

  ghost predicate LastMethod(owner: string, ms: seq<Method>, testFile: bool, j: nat, b: Body) {
    && DefinesMethod(owner, ms, testFile, j, b)
    && forall j2: nat, b2 :: DefinesMethod(owner, ms, testFile, j2, b2) && b2.key == b.key ==> j2 <= j
  }

  lemma {:induction false} LastOfMethods(owner: string, ms: seq<Method>, testFile: bool, j: nat, b: Body)
    requires LastMethod(owner, ms, testFile, j, b)
    ensures b.key in Keys(MethodBodies(owner, ms, testFile)) && LastBody(MethodBodies(owner, ms, testFile), b.key) == b
  {
    hide LastBody, MethodBodies;
    var n := |ms| - 1;
    var bodies := MethodBodies(owner, ms, testFile);
    MethodsDefined(owner, ms, testFile, b);
    KeysAre(bodies, b.key);
    MethodsSnoc(owner, ms, testFile);
    var front, last := MethodBodies(owner, ms[..n], testFile), BodyOf(owner, ms[n], testFile);
    LastOfTwo(front, last, b.key);
    if j == n {
      assert last == [b];
      LastSnoc([], b, b.key);
      assert [] + [b] == [b];
    } else {
      assert forall x :: x in last ==> DefinesMethod(owner, ms, testFile, n, x);
      assert b.key !in Keys(last);
      assert ms[..n][j] == ms[j];
      forall j2: nat, b2 | DefinesMethod(owner, ms[..n], testFile, j2, b2) && b2.key == b.key
        ensures j2 <= j
      {
        assert ms[..n][j2] == ms[j2];
        assert DefinesMethod(owner, ms, testFile, j2, b2);
      }
      LastOfMethods(owner, ms[..n], testFile, j, b);
    }
  }

  lemma MethodsSnoc(owner: string, ms: seq<Method>, testFile: bool)
    requires ms != []
    ensures MethodBodies(owner, ms, testFile) ==
      MethodBodies(owner, ms[..|ms| - 1], testFile) + BodyOf(owner, ms[|ms| - 1], testFile)
  {
  }

  lemma LastOfItem(items: seq<Item>, testFile: bool, i: nat, j: nat, b: Body)
    requires DefinesLast(items, testFile, i, j, b)
    ensures var bodies := ItemBodies(items[i], testFile); b.key in Keys(bodies) && LastBody(bodies, b.key) == b
  {
    hide MethodBodies;
    match items[i]
    case Function(x, code) =>
      assert ItemBodies(items[i], testFile) == [b];
    case Impl(r, ms) =>
      forall j2: nat, b2 | DefinesMethod(r, ms, testFile, j2, b2) && b2.key == b.key
        ensures j2 <= j
      {
        assert Defines(items, testFile, i, j2, b2);
      }
      LastOfMethods(r, ms, testFile, j, b);
    case TraitDef(x, ms) =>
      forall j2: nat, b2 | DefinesMethod(x, ms, false, j2, b2) && b2.key == b.key
        ensures j2 <= j
      {
        assert Defines(items, testFile, i, j2, b2);
      }
      LastOfMethods(x, ms, false, j, b);
  }

  lemma {:induction false} LastDefined(items: seq<Item>, testFile: bool, i: nat, j: nat, b: Body)
    requires DefinesLast(items, testFile, i, j, b)
    ensures b.key in Keys(Bodies(items, testFile)) && LastBody(Bodies(items, testFile), b.key) == b
  {
    hide LastBody, ItemBodies, Defines;
    var n := |items| - 1;
    InRange(items, testFile, i, j, b);
    AllDefined(items, testFile, b);
    KeysAre(Bodies(items, testFile), b.key);
    var front, last := Bodies(items[..n], testFile), ItemBodies(items[n], testFile);
    LastOfTwo(front, last, b.key);
    if i == n {
      LastOfItem(items, testFile, i, j, b);
    } else {
      KeysAre(last, b.key);
      if b.key in Keys(last) {
        var b2 :| b2 in last && b2.key == b.key;
        ItemDefined(items, testFile, n, b2);
        assert false;
      }
      DefinesFront(items, testFile, i, j, b);
      forall i2: nat, j2: nat, b2 | Defines(items[..n], testFile, i2, j2, b2) && b2.key == b.key
        ensures i2 < i || (i2 == i && j2 <= j)
      {
        InRange(items[..n], testFile, i2, j2, b2);
        DefinesFront(items, testFile, i2, j2, b2);
      }
      LastDefined(items[..n], testFile, i, j, b);
    }
  }

  lemma GraphDescribes(items: seq<Item>, testFile: bool, g: Graph)
    requires IsGraph(Bodies(items, testFile), g)
    ensures Describes(items, testFile, g)
  {
    hide Bodies, LastBody, Defines, DefinesLast, HasCall, Sites, MayCall;
    var bodies := Bodies(items, testFile);
    forall b: Body
      ensures b in bodies <==> exists i, j :: Defines(items, testFile, i, j, b)
    {
      AllDefined(items, testFile, b);
    }
    forall k
      ensures k in g.nodes <==> exists i, j, b :: Defines(items, testFile, i, j, b) && b.key == k
    {
      KeysAre(bodies, k);
    }
    forall i, j, b | DefinesLast(items, testFile, i, j, b)
      ensures b.key in g.nodes && g.nodes[b.key] == NodeInfo(b.key, b.isTest)
      ensures forall t :: Step(g.forward, b.key, t) <==> t in g.nodes && HasCall(b.code, t)
    {
      LastDefined(items, testFile, i, j, b);
      forall t
        ensures Step(g.forward, b.key, t) <==> t in g.nodes && HasCall(b.code, t)
      {
        FoundCalls(b.code, t);
      }
    }
    forall t, k
      ensures Step(g.reverse, t, k) <==>
        t in g.nodes && exists i, j, b :: Defines(items, testFile, i, j, b) && b.key == k && HasCall(b.code, t)
    {
      forall b: Body
        ensures t in Callees(b.code, Keys(bodies)) <==> t in g.nodes && HasCall(b.code, t)
      {
        FoundCalls(b.code, t);
      }
      assert Step(g.reverse, t, k) <==> SomeBodyCalls(bodies, Keys(bodies), k, t);
    }
  }

  method Build(items: seq<Item>, testFile: bool) returns (g: Graph)
    ensures IsGraph(Bodies(items, testFile), g)
    ensures Describes(items, testFile, g)
  {
    hide IsForward, IsReverse, Callees, Indexes, Describes;
    var bodies := Bodies(items, testFile);
    var nodes := Nodes(bodies);
    var known := nodes.Keys;
    var methods := Index(known);
    var forward: map<string, set<string>> := map[];
    var reverse: map<string, set<string>> := map[];
    NoBodies(known);
    for i := 0 to |bodies|
      invariant IsForward(bodies[..i], known, forward) && IsReverse(bodies[..i], known, reverse)
    {
      assert bodies[..i + 1] == bodies[..i] + [bodies[i]];
      var callees := Collect(bodies[i].code, known, methods, {});
      assert {} + Callees(bodies[i].code, known) == Callees(bodies[i].code, known);
      ghost var before := reverse;
      reverse := AddCaller(reverse, callees, bodies[i].key);
      ReverseSnoc(bodies[..i], bodies[i], known, before, reverse);
      ForwardSnoc(bodies[..i], bodies[i], known, forward);
      forward := forward[bodies[i].key := callees];
    }
    assert bodies[..|bodies|] == bodies;
    g := Graph(nodes, forward, reverse);
    GraphDescribes(items, testFile, g);
  }

  // ── What the graph says ──────────────────────────────────────────

  /** Every edge ends at a known node, and every edge's inverse is in `reverse`. */
  lemma EdgesKnown(bodies: seq<Body>, g: Graph, a: string, b: string)
    requires IsGraph(bodies, g) && Step(g.forward, a, b)
    ensures a in g.nodes && b in g.nodes && Step(g.reverse, b, a)
  {
    assert SomeBodyCalls(bodies, Keys(bodies), a, b) by {
      var x := LastBody(bodies, a);
      assert x in bodies && x.key == a && b in Callees(x.code, Keys(bodies));
    }
  }

  /** A way to resolve calls at run time. */
  type Resolution = (Site, string) -> bool

  ghost predicate Possible(runs: Resolution) {
    forall s, key :: runs(s, key) ==> MayCall(s, key)
  }

  /** What the call sites run is an edge from `a`, if it is known. */
  ghost predicate Covered(g: Graph, a: string, sites: set<Site>, runs: Resolution) {
    forall s, target :: s in sites && runs(s, target) && target in g.nodes ==> Step(g.forward, a, target)
  }

  /** For any way to resolve calls: what the call sites found in the last body of a key run
      is an edge, and that holds of all its call sites exactly if it holds of the missed ones. */
  lemma CallsAreEdges(bodies: seq<Body>, g: Graph, a: string, runs: Resolution)
    requires IsGraph(bodies, g) && a in g.nodes && Possible(runs)
    ensures var code := LastBody(bodies, a).code;
      && Covered(g, a, Sites(code), runs)
      && (Covered(g, a, Complete(code), runs) <==> Covered(g, a, Missed(code), runs))
  {
    hide Sites, Complete, Missed, LastBody;
    var code := LastBody(bodies, a).code;
    FoundOrMissed(code);
    forall s, target | s in Sites(code) && runs(s, target) && target in g.nodes
      ensures Step(g.forward, a, target)
    {
      assert target in Callees(code, Keys(bodies));
    }
  }

  /** `fn f() { lock f() {} }`: the call of `f` is no edge. */
  lemma LockedCallMissed(f: string, g: Graph)
    requires IsGraph([Body(f, false, Lock(Call(Ident(f), ENil), Other(ENil)))], g)
    ensures f in g.nodes && !Step(g.forward, f, f)
    ensures Direct(f) in Complete(Lock(Call(Ident(f), ENil), Other(ENil))) && MayCall(Direct(f), f)
  {
    var b := Body(f, false, Lock(Call(Ident(f), ENil), Other(ENil)));
    assert b in [b];
    assert LastBody([b], f) == b;
    assert Sites(b.code) == {};
  }

  /** `fn m() { x |> f }`, which stands for the call `f(x)`: there is no edge to `f`. */
  lemma PipedCallMissed(m: string, x: string, f: string, g: Graph)
    requires m != f
    requires IsGraph([Body(f, false, Other(ENil)), Body(m, false, Pipe(Ident(x), Ident(f)))], g)
    ensures m in g.nodes && f in g.nodes && !Step(g.forward, m, f)
    ensures PipeCall(Ident(x), Ident(f)) == Some(Call(Ident(f), ECons(Ident(x), ENil)))
    ensures Direct(f) in Complete(Pipe(Ident(x), Ident(f))) && MayCall(Direct(f), f)
  {
    var callee, caller := Body(f, false, Other(ENil)), Body(m, false, Pipe(Ident(x), Ident(f)));
    var bodies := [callee, caller];
    assert callee in bodies && caller in bodies;
    assert LastBody(bodies, m) == caller;
    assert Sites(caller.code) == {};
  }

  ghost predicate Inverse(g: Graph) {
    forall a, b :: Step(g.forward, a, b) <==> Step(g.reverse, b, a)
  }

  /** No earlier body of a key calls what the last one does not. */
  ghost predicate LastSaysAll(bodies: seq<Body>) {
    forall b :: b in bodies ==> Callees(b.code, Keys(bodies)) <= Callees(LastBody(bodies, b.key).code, Keys(bodies))
  }

  ghost predicate DistinctKeys(bodies: seq<Body>) {
    forall i, j :: 0 <= i < j < |bodies| ==> bodies[i].key != bodies[j].key
  }

  lemma DistinctSayAll(bodies: seq<Body>)
    requires DistinctKeys(bodies)
    ensures LastSaysAll(bodies)
  {
    forall b | b in bodies
      ensures LastBody(bodies, b.key) == b
    {
      var c := LastBody(bodies, b.key);
      var i :| 0 <= i < |bodies| && bodies[i] == b;
      var j :| 0 <= j < |bodies| && bodies[j] == c;
      assert i == j;
    }
  }

  /** `reverse` is the inverse of `forward` exactly if no repeated key has lost
      callees; in particular when keys are distinct. */
  lemma InverseExactly(bodies: seq<Body>, g: Graph)
    requires IsGraph(bodies, g)
    ensures Inverse(g) <==> LastSaysAll(bodies)
    ensures DistinctKeys(bodies) ==> Inverse(g)
  {
    hide DistinctKeys, IsGraph, Callees;
    if DistinctKeys(bodies) {
      DistinctSayAll(bodies);
    }
    if LastSaysAll(bodies) {
      forall a, b
        ensures Step(g.forward, a, b) <==> Step(g.reverse, b, a)
      {
        if Step(g.forward, a, b) { EdgesKnown(bodies, g, a, b); }
        if Step(g.reverse, b, a) { KeptEdge(bodies, g, a, b); }
      }
    }
    if Inverse(g) {
      InverseKeeps(bodies, g);
    }
  }

  lemma KeptEdge(bodies: seq<Body>, g: Graph, a: string, b: string)
    requires IsGraph(bodies, g) && LastSaysAll(bodies) && Step(g.reverse, b, a)
    ensures Step(g.forward, a, b)
  {
    hide Callees, LastBody;
    assert SomeBodyCalls(bodies, Keys(bodies), a, b);
    var x :| x in bodies && x.key == a && b in Callees(x.code, Keys(bodies));
    assert a in Keys(bodies);
  }

  lemma InverseKeeps(bodies: seq<Body>, g: Graph)
    requires IsGraph(bodies, g) && Inverse(g)
    ensures LastSaysAll(bodies)
  {
    hide Callees, LastBody;
    forall x, c | x in bodies && c in Callees(x.code, Keys(bodies))
      ensures c in Callees(LastBody(bodies, x.key).code, Keys(bodies))
    {
      assert SomeBodyCalls(bodies, Keys(bodies), x.key, c);
      assert Step(g.reverse, c, x.key);
      assert Step(g.forward, x.key, c);
    }
  }

  // ── Traversal ────────────────────────────────────────────────────

  ghost predicate Walk(edges: map<string, set<string>>, p: seq<string>) {
    forall i :: 0 <= i < |p| - 1 ==> Step(edges, p[i], p[i + 1])
  }

  /** `b` is reached from `a` by one or more edges. */
  ghost predicate Reaches(edges: map<string, set<string>>, a: string, b: string) {
    exists p :: |p| >= 2 && Walk(edges, p) && p[0] == a && p[|p| - 1] == b
  }

  lemma ReachStep(edges: map<string, set<string>>, a: string, b: string)
    requires Step(edges, a, b)
    ensures Reaches(edges, a, b)
  {
    var p := [a, b];
    assert |p| >= 2 && Walk(edges, p) && p[0] == a && p[|p| - 1] == b;
  }

  lemma ReachMore(edges: map<string, set<string>>, a: string, b: string, c: string)
    requires Reaches(edges, a, b) && Step(edges, b, c)
    ensures Reaches(edges, a, c)
  {
    var p :| |p| >= 2 && Walk(edges, p) && p[0] == a && p[|p| - 1] == b;
    var q := p + [c];
    forall i | 0 <= i < |q| - 1
      ensures Step(edges, q[i], q[i + 1])
    {
      if i < |p| - 1 {
        assert Step(edges, p[i], p[i + 1]);
      }
    }
    assert |q| >= 2 && Walk(edges, q) && q[0] == a && q[|q| - 1] == c;
  }

  /** A set closed under edges that has the first step of a walk has its end. */
  lemma {:induction false} ClosedReach(edges: map<string, set<string>>, seen: set<string>, p: seq<string>)
    requires |p| >= 2 && Walk(edges, p) && Step(edges, p[0], p[1]) && p[1] in seen
    requires forall a, b :: a in seen && Step(edges, a, b) ==> b in seen
    ensures p[|p| - 1] in seen
    decreases |p|
  {
    if |p| > 2 {
      var q := p[1..];
      assert Step(edges, p[1], p[1 + 1]);
      forall i | 0 <= i < |q| - 1
        ensures Step(edges, q[i], q[i + 1])
      {
        assert Step(edges, p[i + 1], p[i + 1 + 1]);
      }
      ClosedReach(edges, seen, q);
    }
  }

  function Neighbors(edges: map<string, set<string>>, a: string): set<string> {
    if a in edges then edges[a] else {}
  }

  ghost function Targets(edges: map<string, set<string>>): set<string> {
    set a, b | a in edges && b in edges[a] :: b
  }

  /** Everything reached from `start` by one or more edges. */
  method ReachSet(start: string, edges: map<string, set<string>>) returns (seen: set<string>)
    ensures forall b :: b in seen <==> Reaches(edges, start, b)
  {
    seen := {};
    var queue: seq<string>;
    seen, queue := Visit(edges, start, start, seen, []);
    while queue != []
      invariant seen <= Targets(edges) && (forall b :: b in seen ==> Reaches(edges, start, b))
      invariant forall b :: b in queue ==> b in seen
      invariant forall b :: Step(edges, start, b) ==> b in seen
      invariant forall a, b :: a in seen && a !in queue && Step(edges, a, b) ==> b in seen
      decreases |Targets(edges) - seen|, |queue|
    {
      var cur := queue[0];
      ghost var before, was := seen, queue;
      assert cur in seen;
      seen, queue := Visit(edges, start, cur, seen, queue[1..]);
      assert was == [cur] + was[1..];
      if seen == before {
      } else {
        Shrinks(Targets(edges) - before, Targets(edges) - seen);
      }
    }
    AllReached(edges, start, seen);
  }

  lemma Shrinks(a: set<string>, b: set<string>)
    requires b < a
    ensures |b| < |a|
  {
    var x :| x in a && x !in b;
    assert b <= a - {x};
    SubsetSize(b, a - {x});
  }

  lemma SubsetSize(b: set<string>, a: set<string>)
    requires b <= a
    ensures |b| <= |a|
    decreases |b|
  {
    if b != {} {
      var x :| x in b;
      SubsetSize(b - {x}, a - {x});
    }
  }

  lemma AllReached(edges: map<string, set<string>>, start: string, seen: set<string>)
    requires forall b :: Step(edges, start, b) ==> b in seen
    requires forall a, b :: a in seen && Step(edges, a, b) ==> b in seen
    ensures forall b :: Reaches(edges, start, b) ==> b in seen
  {
    forall b | Reaches(edges, start, b)
      ensures b in seen
    {
      var p :| |p| >= 2 && Walk(edges, p) && p[0] == start && p[|p| - 1] == b;
      assert Step(edges, p[0], p[0 + 1]);
      ClosedReach(edges, seen, p);
    }
  }

  /** Queues the neighbours of `a` that were not seen before. */
  method Visit(edges: map<string, set<string>>, ghost start: string, a: string, seen: set<string>, queue: seq<string>)
    returns (seen': set<string>, queue': seq<string>)
    requires a == start || Reaches(edges, start, a)
    requires seen <= Targets(edges) && (forall b :: b in seen ==> Reaches(edges, start, b)) &&
        (forall b :: b in queue ==> b in seen)
    ensures seen <= seen' <= Targets(edges) && (forall b :: b in seen' ==> Reaches(edges, start, b))
    ensures forall b :: b in queue' <==> b in queue || (b in seen' && b !in seen)
    ensures forall b :: Step(edges, a, b) ==> b in seen'
    ensures seen' == seen ==> queue' == queue
  {
    seen', queue' := seen, queue;
    var rest := Neighbors(edges, a);
    while rest != {}
      invariant rest <= Neighbors(edges, a) && seen <= seen' <= Targets(edges)
      invariant forall b :: b in seen' ==> Reaches(edges, start, b)
      invariant forall b :: b in queue' <==> b in queue || (b in seen' && b !in seen)
      invariant forall b :: b in Neighbors(edges, a) - rest ==> b in seen'
      invariant seen' == seen ==> queue' == queue
      decreases |rest|
    {
      var b :| b in rest;
      if b !in seen' {
        if a == start { ReachStep(edges, a, b); }
        if a != start || Reaches(edges, start, a) { ReachMore(edges, start, a, b); }
        seen', queue' := seen' + {b}, queue' + [b];
      }
      rest := rest - {b};
    }
  }

  /** The known nodes reached from `start`, sorted by key and without repetition. */
  ghost predicate IsReach(g: Graph, start: string, edges: map<string, set<string>>, out: seq<NodeInfo>) {
    && (forall n :: n in out <==> exists k :: k in g.nodes && Reaches(edges, start, k) && n == g.nodes[k])
    && (forall i, j :: 0 <= i < j < |out| ==> Less(out[i].key, out[j].key))
  }

  ghost predicate KeysFit(g: Graph) {
    forall k :: k in g.nodes ==> g.nodes[k].key == k
  }

  /** `bfs_reach`. */
  method BfsReach(g: Graph, start: string, edges: map<string, set<string>>) returns (out: seq<NodeInfo>)
    requires KeysFit(g)
    ensures IsReach(g, start, edges, out)
  {
    var seen := ReachSet(start, edges);
    var keys := Sorted(seen);
    out := [];
    for i := 0 to |keys|
      invariant forall n :: n in out <==> exists j :: 0 <= j < i && keys[j] in g.nodes && n == g.nodes[keys[j]]
      invariant forall a, b :: 0 <= a < b < |out| ==> Less(out[a].key, out[b].key)
    {
      if keys[i] in g.nodes {
        forall a | 0 <= a < |out|
          ensures Less(out[a].key, keys[i])
        {
          assert out[a] in out;
        }
        out := out + [g.nodes[keys[i]]];
      }
    }
    forall n
      ensures n in out <==> exists k :: k in g.nodes && Reaches(edges, start, k) && n == g.nodes[k]
    {
      if n in out {
        var j :| 0 <= j < |keys| && keys[j] in g.nodes && n == g.nodes[keys[j]];
        assert keys[j] in keys;
      }
      if k :| k in g.nodes && Reaches(edges, start, k) && n == g.nodes[k] {
        assert k in seen;
        assert k in keys;
        var j :| 0 <= j < |keys| && keys[j] == k;
      }
    }
  }

  method TransitiveCallees(g: Graph, start: string) returns (out: seq<NodeInfo>)
    requires KeysFit(g)
    ensures IsReach(g, start, g.forward, out)
  {
    out := BfsReach(g, start, g.forward);
  }

  method TransitiveCallers(g: Graph, start: string) returns (out: seq<NodeInfo>)
    requires KeysFit(g)
    ensures IsReach(g, start, g.reverse, out)
  {
    out := BfsReach(g, start, g.reverse);
  }

  /** The callers that are tests, in the order of all callers. */
  method ReachingTests(g: Graph, start: string) returns (out: seq<NodeInfo>)
    requires KeysFit(g)
    ensures forall n :: n in out <==>
        n.isTest && exists k :: k in g.nodes && Reaches(g.reverse, start, k) && n == g.nodes[k]
    ensures forall i, j :: 0 <= i < j < |out| ==> Less(out[i].key, out[j].key)
  {
    var callers := TransitiveCallers(g, start);
    out := [];
    for i := 0 to |callers|
      invariant forall n :: n in out <==> n.isTest && n in callers[..i]
      invariant forall a, b :: 0 <= a < b < |out| ==> Less(out[a].key, out[b].key)
    {
      if callers[i].isTest {
        forall a | 0 <= a < |out|
          ensures Less(out[a].key, callers[i].key)
        {
          assert out[a] in out;
          assert out[a] in callers[..i];
        }
        out := out + [callers[i]];
      }
      assert callers[..i + 1] == callers[..i] + [callers[i]];
    }
    assert callers[..|callers|] == callers;
  }

  // ── Callers and callees ──────────────────────────────────────────

  function Reversed(p: seq<string>): (q: seq<string>)
    ensures |q| == |p| && forall i :: 0 <= i < |p| ==> q[i] == p[|p| - 1 - i]
  {
    seq(|p|, i requires 0 <= i < |p| => p[|p| - 1 - i])
  }

  lemma ReverseWalk(e: map<string, set<string>>, r: map<string, set<string>>, a: string, b: string)
    requires (forall x, y :: Step(e, x, y) ==> Step(r, y, x)) && Reaches(e, a, b)
    ensures Reaches(r, b, a)
  {
    var p :| |p| >= 2 && Walk(e, p) && p[0] == a && p[|p| - 1] == b;
    var q := Reversed(p);
    forall i | 0 <= i < |q| - 1
      ensures Step(r, q[i], q[i + 1])
    {
      var j := |p| - 2 - i;
      assert Step(e, p[j], p[j + 1]);
    }
    assert |q| >= 2 && Walk(r, q) && q[0] == b && q[|q| - 1] == a;
  }

  /** When no repeated key has lost callees: `y` is a transitive callee of `x`
      exactly if `x` is a transitive caller of `y`. */
  lemma CallersAreCallees(bodies: seq<Body>, g: Graph, x: string, y: string)
    requires IsGraph(bodies, g) && LastSaysAll(bodies)
    ensures Reaches(g.forward, x, y) <==> Reaches(g.reverse, y, x)
  {
    InverseExactly(bodies, g);
    if Reaches(g.forward, x, y) {
      ReverseWalk(g.forward, g.reverse, x, y);
    }
    if Reaches(g.reverse, y, x) {
      ReverseWalk(g.reverse, g.forward, y, x);
    }
  }
}
