/** What a run does to one variable: nothing beyond the ways in which its name
    occurs in the tree, or in the closures that can reach it. */
module TreeSafety {
  import opened Options
  import opened TreeSyntax
  import opened TreeRuns

  /** A slot, and the ways in which it may be touched. */
  datatype Watch = Watch(slot: nat, allowed: set<Kind>)

  /** The names that stand for a slot. */
  function NamesOf(env: Env, slot: nat): set<string> {
    set n | n in env && env[n] == slot
  }

  /** The closures in a value touch the slot in the allowed ways only. */
  predicate SafeV(w: World, a: Watch, v: Value) {
    match v
    case Atom(_) => true
    case Tup(parts, _) => forall i :: 0 <= i < |parts| ==> SafeV(w, a, parts[i])
    case Fun(_, c, env) => Only(w.modes, NamesOf(env, a.slot), a.allowed, Taken, c)
  }

  predicate SafeVs(w: World, a: Watch, vs: seq<Value>) {
    forall i :: 0 <= i < |vs| ==> SafeV(w, a, vs[i])
  }

  predicate SafeSt(w: World, a: Watch, st: State) {
    a.slot < |st.store| && SafeVs(w, a, st.store)
  }

  predicate SafePlace(w: World, a: Watch, p: Place) {
    p.Temp? ==> SafeV(w, a, p.v)
  }

  /** The slot is reached by names of `ns` only. */
  predicate Knows(a: Watch, ns: set<string>, env: Env) {
    NamesOf(env, a.slot) <= ns
  }

  predicate SafePending(w: World, a: Watch, ns: set<string>, pending: seq<Cleanup>) {
    forall i :: 0 <= i < |pending| ==> Knows(a, ns, pending[i].env) && OnlyB(w.modes, ns, a.allowed, pending[i].body)
  }

  /** What happened to the slot was allowed, and unless a write was, it has its old value;
      nothing is forgotten. */
  predicate Kept(a: Watch, st: State, st': State) {
    && (forall k :: Event(a.slot, k) in st'.log ==> Event(a.slot, k) in st.log || k in a.allowed)
    && st.log <= st'.log && a.slot < |st.store| <= |st'.store|
    && (Altered !in a.allowed && Replaced !in a.allowed ==> st'.store[a.slot] == st.store[a.slot])
  }

  predicate SafeEnd(w: World, a: Watch, how: Ending) {
    && (how.Broke? ==> SafeV(w, a, how.v))
    && (how.Returned? ==> SafeV(w, a, how.v))
  }

  predicate Safe(w: World, a: Watch, st: State, r: Result<Value>) {
    SafeSt(w, a, r.st) && Kept(a, st, r.st) && (if r.Ok? then SafeV(w, a, r.value) else SafeEnd(w, a, r.how))
  }

  predicate SafeList(w: World, a: Watch, st: State, r: Result<seq<Value>>) {
    SafeSt(w, a, r.st) && Kept(a, st, r.st) && (if r.Ok? then SafeVs(w, a, r.value) else SafeEnd(w, a, r.how))
  }

  predicate SafeAt(w: World, a: Watch, st: State, r: Result<Place>) {
    SafeSt(w, a, r.st) && Kept(a, st, r.st) && (if r.Ok? then SafePlace(w, a, r.value) else SafeEnd(w, a, r.how))
  }

  // ── Values ───────────────────────────────────────────────────────

  lemma {:induction false} GetSafe(w: World, a: Watch, v: Value, path: seq<nat>)
    requires SafeV(w, a, v)
    ensures SafeV(w, a, Get(v, path))
    decreases |path|
  {
    hide Only;
    if path != [] && v.Tup? && path[0] < |v.parts| {
      GetSafe(w, a, v.parts[path[0]], path[1..]);
    }
  }

  lemma {:induction false} PutSafe(w: World, a: Watch, v: Value, path: seq<nat>, x: Value)
    requires SafeV(w, a, v) && SafeV(w, a, x)
    ensures SafeV(w, a, Put(v, path, x))
    decreases |path|
  {
    hide Only;
    if path != [] && v.Tup? && path[0] < |v.parts| {
      PutSafe(w, a, v.parts[path[0]], path[1..], x);
    }
  }

  lemma PickSafe(w: World, a: Watch, pool: seq<Value>, c: Chance)
    requires SafeVs(w, a, pool)
    ensures SafeV(w, a, Pick(pool, c))
  {
    hide Only;
    assert SafeV(w, a, Tup(pool, 0));
    GetSafe(w, a, Tup(pool, 0), c.ns);
  }

  lemma ReadSafe(w: World, a: Watch, p: Place, st: State)
    requires SafePlace(w, a, p) && SafeSt(w, a, st)
    ensures SafeV(w, a, ReadAt(p, st))
  {
    hide Only;
    if p.At? {
      GetSafe(w, a, Load(st, p.slot), p.path);
    }
  }

  lemma SubSafe(w: World, a: Watch, p: Place, i: nat)
    requires SafePlace(w, a, p)
    ensures SafePlace(w, a, Sub(p, i))
  {
    hide Only;
    if p.Temp? {
      GetSafe(w, a, p.v, [i]);
    }
  }

  /** A write that is allowed, or goes elsewhere. */
  lemma StoreSafe(w: World, a: Watch, p: Place, whole: bool, v: Value, st: State)
    requires SafeSt(w, a, st) && SafeV(w, a, v)
    requires p.At? && p.slot == a.slot ==> (if whole then Replaced else Altered) in a.allowed
    ensures SafeSt(w, a, Store(p, whole, v, st)) && Kept(a, st, Store(p, whole, v, st))
  {
    hide Only, SafeV;
    if p.At? && p.slot < |st.store| {
      PutSafe(w, a, st.store[p.slot], p.path, v);
    }
  }

  /** New slots are not the watched one. */
  lemma {:induction false} BindSafe(w: World, a: Watch, ns: set<string>, names: seq<string>, v: Value, env: Env,
          st: State)
    requires SafeSt(w, a, st) && SafeV(w, a, v) && Knows(a, ns, env)
    ensures var r := Bind(w, names, v, env, st); SafeSt(w, a, r.1) && Kept(a, st, r.1) && Knows(a, ns, r.0)
    decreases |names|
  {
    hide Only, SafeV;
    if names != [] {
      GetSafe(w, a, v, Roll(w, st).ns);
      var env' := env[names[0] := |st.store|];
      var st' := Tick(st.(store := st.store + [Get(v, Roll(w, st).ns)]));
      assert NamesOf(env', a.slot) <= NamesOf(env, a.slot);
      BindSafe(w, a, ns, names[1..], v, env', st');
    }
  }

  lemma {:induction false} BindParamsSafe(w: World, a: Watch, ns: set<string>, params: seq<string>, vs: seq<Value>,
          env: Env, st: State)
    requires SafeSt(w, a, st) && SafeVs(w, a, vs) && Knows(a, ns, env)
    ensures var r := BindParams(params, vs, env, st); SafeSt(w, a, r.1) && Kept(a, st, r.1) && Knows(a, ns, r.0)
    decreases |params|
  {
    hide Only;
    if params != [] {
      var env' := env[params[0] := |st.store|];
      var v := if vs == [] then Atom(0) else vs[0];
      assert NamesOf(env', a.slot) <= NamesOf(env, a.slot);
      BindParamsSafe(w, a, ns, params[1..], if vs == [] then [] else vs[1..], env', st.(store := st.store + [v]));
    }
  }

  /** A name in an expression that mentions one of `ns`. */
  lemma CaptureSafe(w: World, a: Watch, ns: set<string>, params: seq<string>, c: Expr, env: Env, st: State)
    requires SafeSt(w, a, st) && Knows(a, ns, env) && Only(w.modes, ns, a.allowed, Taken, Closure(params, c))
    ensures SafeSt(w, a, Capture(c, env, st)) && Kept(a, st, Capture(c, env, st))
    ensures SafeV(w, a, Fun(params, c, Captures(c, env)))
  {
    var ms := NamesOf(Captures(c, env), a.slot);
    assert ms <= NamesOf(env, a.slot);
    Fewer(w.modes, ns, ms, a.allowed, Taken, c);
    if n :| n in env && Mentions({n}, c) && env[n] == a.slot {
      assert n in NamesOf(env, a.slot);
      FewerMentions(ns, {n}, c);
    }
  }

  // ── Places ───────────────────────────────────────────────────────

  /** A place is in a variable exactly if it is rooted at a name of it. */
  lemma {:induction false} PlaceRoot(w: World, how: Kind, e: Expr, env: Env, st: State, fuel: nat)
    ensures var r := EvalPlace(w, how, e, env, st, fuel);
      r.Ok? ==>
        var root := AssignTargetRoot(e);
        (r.value.At? <==> root.Some? && root.value in env) && (r.value.At? ==> r.value.slot == env[root.value])
    decreases e
  {
    hide Eval;
    if e.Project? || e.Index? {
      PlaceRoot(w, Through, e.base, env, st, fuel);
    }
  }

  lemma {:induction false} PlaceSafe(w: World, a: Watch, ns: set<string>, how: Kind, e: Expr, env: Env, st: State,
          fuel: nat)
    requires SafeSt(w, a, st) && Knows(a, ns, env) && Only(w.modes, ns, a.allowed, how, e)
    ensures SafeAt(w, a, st, EvalPlace(w, how, e, env, st, fuel))
    decreases fuel, 2, e, if IsPlace(e) then 2 else 3
  {
    hide Eval, SafeV;
    if e.Name? && e.n in env {
      assert env[e.n] == a.slot ==> e.n in NamesOf(env, a.slot);
    } else if e.Project? {
      PlaceSafe(w, a, ns, Through, e.base, env, st, fuel);
      var r := EvalPlace(w, Through, e.base, env, st, fuel);
      if r.Ok? {
        SubSafe(w, a, r.value, e.field);
      }
    } else if e.Index? {
      PlaceSafe(w, a, ns, Through, e.base, env, st, fuel);
      var r := EvalPlace(w, Through, e.base, env, st, fuel);
      if r.Ok? {
        EvalSafe(w, a, ns, Taken, e.index, env, r.st, fuel);
        var i := Eval(w, Taken, e.index, env, r.st, fuel);
        if i.Ok? {
          SubSafe(w, a, r.value, if i.value.Atom? then i.value.n else 0);
        }
      }
    } else {
      EvalSafe(w, a, ns, how, e, env, st, fuel);
    }
  }

  lemma AssignSafe(w: World, a: Watch, ns: set<string>, t: Expr, v: Value, env: Env, st: State, fuel: nat)
    requires SafeSt(w, a, st) && SafeV(w, a, v) && Knows(a, ns, env) && OnlyTarget(w.modes, ns, a.allowed, t)
    ensures Safe(w, a, st, EvalAssign(w, t, v, env, st, fuel))
    decreases fuel, 2, t, 4
  {
    hide Eval, EvalPlace;
    PlaceSafe(w, a, ns, Replaced, t, env, st, fuel);
    PlaceRoot(w, Replaced, t, env, st, fuel);
    var r := EvalPlace(w, Replaced, t, env, st, fuel);
    if r.Ok? {
      if r.value.At? && r.value.slot == a.slot {
        assert AssignTargetRoot(t).value in NamesOf(env, a.slot);
      }
      StoreSafe(w, a, r.value, t.Name?, v, r.st);
    }
  }

  lemma {:induction false} TargetsSafe(w: World, a: Watch, ns: set<string>, ts: Exprs, vs: seq<Value>, env: Env,
          st: State, fuel: nat)
    requires SafeSt(w, a, st) && SafeVs(w, a, vs) && Knows(a, ns, env) && OnlyTargets(w.modes, ns, a.allowed, ts)
    ensures Safe(w, a, st, EvalTargets(w, ts, vs, env, st, fuel))
    decreases fuel, 2, ts, 0
  {
    hide EvalAssign, Only, SafeV;
    SafeAtoms(w, a);
    if ts.ECons? {
      var x := if vs == [] then Atom(0) else vs[0];
      AssignSafe(w, a, ns, ts.head, x, env, st, fuel);
      var r := EvalAssign(w, ts.head, x, env, st, fuel);
      if r.Ok? {
        TargetsSafe(w, a, ns, ts.tail, if vs == [] then [] else vs[1..], env, r.st, fuel);
      }
    }
  }

  lemma SafeAtoms(w: World, a: Watch)
    ensures forall n :: SafeV(w, a, Atom(n))
  {
  }

  // ── Calls ────────────────────────────────────────────────────────

  lemma ApplySafe(w: World, a: Watch, f: Value, vs: seq<Value>, st: State, fuel: nat)
    requires SafeSt(w, a, st) && SafeV(w, a, f) && SafeVs(w, a, vs)
    ensures Safe(w, a, st, Apply(w, f, vs, st, fuel))
    decreases fuel, 0, 0
  {
    hide Eval, Only;
    if f.Fun? && fuel > 0 {
      var ns := NamesOf(f.env, a.slot);
      BindParamsSafe(w, a, ns, f.params, vs, f.env, st);
      var bound := BindParams(f.params, vs, f.env, st);
      EvalSafe(w, a, ns, Taken, f.code, bound.0, bound.1, fuel - 1);
    }
  }

  lemma {:induction false} CallbacksSafe(w: World, a: Watch, pool: seq<Value>, ns: seq<nat>, st: State, fuel: nat)
    requires SafeSt(w, a, st) && SafeVs(w, a, pool)
    ensures Safe(w, a, st, Callbacks(w, pool, ns, st, fuel))
    decreases fuel, 0, |ns|
  {
    hide Apply, SafeV;
    SafeAtoms(w, a);
    if ns != [] && |pool| != 0 {
      ApplySafe(w, a, pool[ns[0] % |pool|], pool, st, fuel);
      var r := Apply(w, pool[ns[0] % |pool|], pool, st, fuel);
      if r.Ok? {
        CallbacksSafe(w, a, pool, ns[1..], r.st, fuel);
      }
    }
  }

  lemma OpaqueSafe(w: World, a: Watch, pool: seq<Value>, st: State, fuel: nat)
    requires SafeSt(w, a, st) && SafeVs(w, a, pool)
    ensures Safe(w, a, st, Opaque(w, pool, st, fuel))
    decreases fuel, 1, 0
  {
    hide Callbacks, SafeV, Pick;
    CallbacksSafe(w, a, pool, Roll(w, st).ns, Tick(st), fuel);
    var r := Callbacks(w, pool, Roll(w, st).ns, Tick(st), fuel);
    PickSafe(w, a, pool, Roll(w, r.st));
  }

  /** Only listed methods write. */
  lemma WriterListed(name: string)
    ensures WriterOf(name).Some? ==> IsMutatingCollectionMethod(name)
  {
  }

  lemma {:induction false} ReversedFrom(s: seq<Value>)
    ensures forall y :: y in Reversed(s) ==> y in s
  {
    if s != [] { ReversedFrom(s[1..]); }
  }

  lemma {:induction false} RetainedFrom(s: seq<Value>, ns: seq<nat>)
    ensures forall y :: y in Retained(s, ns) ==> y in s
  {
    if s != [] { RetainedFrom(s[1..], if ns == [] then [] else ns[1..]); }
  }

  lemma {:induction false} RearrangedFrom(s: seq<Value>, ns: seq<nat>)
    ensures forall y :: y in Rearranged(s, ns) ==> y in s
    decreases |ns|
  {
    if |ns| >= 2 { RearrangedFrom(Swapped(s, ns[0], ns[1]), ns[2..]); }
  }

  lemma {:induction false} DedupedFrom(s: seq<Value>)
    ensures forall y :: y in Deduped(s) ==> y in s
  {
    if |s| >= 2 { DedupedFrom(s[1..]); }
  }

  lemma WriterWrites(name: string, v: Value, vs: seq<Value>, c: Chance)
    requires BuiltIn(name, v, vs, c).Some?
    ensures WriterOf(name).Some? && v.Tup?
  {
    hide WriterOf, NewParts;
  }

  /** What is written is made of the receiver's parts and the arguments. */
  lemma PartsFrom(k: Writer, s: seq<Value>, vs: seq<Value>, ns: seq<nat>)
    ensures forall y :: y in NewParts(k, s, vs, ns) ==>
        y in s || y == Arg(vs, 0) || y == Arg(vs, 1) || y in Parts(Arg(vs, 0)) || y in Parts(Arg(vs, 1))
  {
    ReversedFrom(s);
    RetainedFrom(s, ns);
    RearrangedFrom(s, ns);
    DedupedFrom(s);
    hide Reversed, Retained, Rearranged, Deduped;
  }

  lemma BuiltInSafe(w: World, a: Watch, name: string, v: Value, vs: seq<Value>, c: Chance)
    requires SafeV(w, a, v) && SafeVs(w, a, vs) && BuiltIn(name, v, vs, c).Some?
    ensures SafeV(w, a, BuiltIn(name, v, vs, c).value)
  {
    hide WriterOf, NewParts, Only;
    WriterWrites(name, v, vs, c);
    PartsFrom(WriterOf(name).value, v.parts, vs, c.ns);
    var x := BuiltIn(name, v, vs, c).value;
    forall i | 0 <= i < |x.parts|
      ensures SafeV(w, a, x.parts[i])
    {
      assert x.parts[i] in x.parts;
    }
  }

  lemma MethodSafe(w: World, a: Watch, name: string, p: Place, vs: seq<Value>, st: State, fuel: nat)
    requires SafeSt(w, a, st) && SafeVs(w, a, vs) && SafePlace(w, a, p)
    requires IsMutatingCollectionMethod(name) && p.At? && p.slot == a.slot ==> Altered in a.allowed
    ensures Safe(w, a, st, RunMethod(w, name, p, vs, st, fuel))
    decreases fuel, 1, 1
  {
    hide Opaque, SafeV, Store, BuiltIn, IsMutatingCollectionMethod;
    ReadSafe(w, a, p, st);
    var pool := [ReadAt(p, st)] + vs;
    OpaqueSafe(w, a, pool, st, fuel);
    var r := Opaque(w, pool, st, fuel);
    if r.Ok? {
      ReadSafe(w, a, p, r.st);
      var x := BuiltIn(name, ReadAt(p, r.st), vs, Roll(w, r.st));
      if x.Some? {
        WriterListed(name);
        WriterWrites(name, ReadAt(p, r.st), vs, Roll(w, r.st));
        BuiltInSafe(w, a, name, ReadAt(p, r.st), vs, Roll(w, r.st));
        StoreSafe(w, a, p, false, x.value, r.st);
      }
    }
  }

  // ── Expressions ──────────────────────────────────────────────────

  /** Any run of an expression, from any state whose closures are safe, touches the
      watched variable in the allowed ways only. */
  lemma {:induction false} EvalSafe(w: World, a: Watch, ns: set<string>, how: Kind, e: Expr, env: Env, st: State,
          fuel: nat)
    requires SafeSt(w, a, st) && Knows(a, ns, env) && Only(w.modes, ns, a.allowed, how, e)
    ensures Safe(w, a, st, Eval(w, how, e, env, st, fuel))
    decreases fuel, 2, e, if IsPlace(e) then 3 else 2
  {
    hide EvalPlace, EvalList, EvalBlock, EvalArms, Iterate, Apply, Opaque, RunMethod, Bind, SafeV,
        IsMutatingCollectionMethod, Captures, Capture;
    SafeAtoms(w, a);
    match e
    case Lit =>
    case Name(n) => assert n in env && env[n] == a.slot ==> n in NamesOf(env, a.slot);
    case Project(_, _) =>
      PlaceSafe(w, a, ns, how, e, env, st, fuel);
      ReadFromSafe(w, a, st, EvalPlace(w, how, e, env, st, fuel));
    case Index(_, _) =>
      PlaceSafe(w, a, ns, how, e, env, st, fuel);
      ReadFromSafe(w, a, st, EvalPlace(w, how, e, env, st, fuel));
    case MethodCall(_, _, _) => EvalMethodSafe(w, a, ns, how, e, env, st, fuel);
    case OptionalChain(_, _) => EvalChainSafe(w, a, ns, how, e, env, st, fuel);
    case Call(_, _) => EvalCallSafe(w, a, ns, how, e, env, st, fuel);
    case Group(form, items) =>
      ListSafe(w, a, ns, None, 0, form.Lazy?, items, env, st, fuel);
      var l := EvalList(w, None, 0, form.Lazy?, items, env, st, fuel);
      if l.Ok? {
        OpaqueSafe(w, a, l.value, l.st, fuel);
      }
    case Jump(_, _, v) => EvalSafe(w, a, ns, Taken, v, env, st, fuel);
    case BlockE(c, b) => BlockSafe(w, a, ns, b, env, st, fuel);
    case If(_, _, _, _) => EvalIfSafe(w, a, ns, how, e, env, st, fuel);
    case Match(s, arms) =>
      EvalSafe(w, a, ns, Scrutinised, s, env, st, fuel);
      var r := Eval(w, Scrutinised, s, env, st, fuel);
      if r.Ok? {
        ArmsSafe(w, a, ns, r.value, arms, env, r.st, fuel);
      }
    case Loop(_, _, _, _) => EvalLoopSafe(w, a, ns, how, e, env, st, fuel);
    case Scoped(_, hs, b) =>
      ListSafe(w, a, ns, None, 0, false, hs, env, st, fuel);
      var l := EvalList(w, None, 0, false, hs, env, st, fuel);
      if l.Ok? {
        BlockSafe(w, a, ns, b, env, l.st, fuel);
      }
    case Closure(params, c) => CaptureSafe(w, a, ns, params, c, env, st);
  }

  lemma EvalChainSafe(w: World, a: Watch, ns: set<string>, how: Kind, e: Expr, env: Env, st: State, fuel: nat)
    requires SafeSt(w, a, st) && Knows(a, ns, env) && Only(w.modes, ns, a.allowed, how, e) && e.OptionalChain?
    ensures Safe(w, a, st, Eval(w, how, e, env, st, fuel))
    decreases fuel, 2, e, 0
  {
    hide EvalList, Opaque, SafeV, IsMutatingCollectionMethod;
    SafeAtoms(w, a);
    EvalSafe(w, a, ns, Through, e.base, env, st, fuel);
    var r := Eval(w, Through, e.base, env, st, fuel);
    if r.Ok? && Roll(w, r.st).n != 0 {
      ListSafe(w, a, ns, None, 0, false, e.args, env, Tick(r.st), fuel);
      var l := EvalList(w, None, 0, false, e.args, env, Tick(r.st), fuel);
      if l.Ok? {
        OpaqueSafe(w, a, [r.value] + l.value, l.st, fuel);
      }
    }
  }

  lemma EvalCallSafe(w: World, a: Watch, ns: set<string>, how: Kind, e: Expr, env: Env, st: State, fuel: nat)
    requires SafeSt(w, a, st) && Knows(a, ns, env) && Only(w.modes, ns, a.allowed, how, e) && e.Call?
    ensures Safe(w, a, st, Eval(w, how, e, env, st, fuel))
    decreases fuel, 2, e, 0
  {
    hide EvalList, Opaque, Apply, SafeV, IsMutatingCollectionMethod;
    EvalSafe(w, a, ns, Taken, e.callee, env, st, fuel);
    var r := Eval(w, Taken, e.callee, env, st, fuel);
    if r.Ok? {
      ListSafe(w, a, ns, Some(e.callee), 0, false, e.args, env, r.st, fuel);
      var l := EvalList(w, Some(e.callee), 0, false, e.args, env, r.st, fuel);
      if l.Ok? {
        OpaqueSafe(w, a, l.value, l.st, fuel);
        ApplySafe(w, a, r.value, l.value, l.st, fuel);
      }
    }
  }

  lemma EvalIfSafe(w: World, a: Watch, ns: set<string>, how: Kind, e: Expr, env: Env, st: State, fuel: nat)
    requires SafeSt(w, a, st) && Knows(a, ns, env) && Only(w.modes, ns, a.allowed, how, e) && e.If?
    ensures Safe(w, a, st, Eval(w, how, e, env, st, fuel))
    decreases fuel, 2, e, 0
  {
    hide EvalBlock, Bind, SafeV, IsMutatingCollectionMethod;
    EvalSafe(w, a, ns, HeadKind(e.pat.Some?), e.cond, env, st, fuel);
    var r := Eval(w, HeadKind(e.pat.Some?), e.cond, env, st, fuel);
    if r.Ok? {
      if Roll(w, r.st).n == 0 {
        EvalSafe(w, a, ns, Taken, e.elseBranch, env, Tick(r.st), fuel);
      } else {
        var names := if e.pat.Some? then e.pat.value else [];
        BindSafe(w, a, ns, names, r.value, env, Tick(r.st));
        var bound := Bind(w, names, r.value, env, Tick(r.st));
        BlockSafe(w, a, ns, e.thenBranch, bound.0, bound.1, fuel);
      }
    }
  }

  lemma EvalLoopSafe(w: World, a: Watch, ns: set<string>, how: Kind, e: Expr, env: Env, st: State, fuel: nat)
    requires SafeSt(w, a, st) && Knows(a, ns, env) && Only(w.modes, ns, a.allowed, how, e) && e.Loop?
    ensures Safe(w, a, st, Eval(w, how, e, env, st, fuel))
    decreases fuel, 2, e, 1
  {
    hide Iterate, SafeV, IsMutatingCollectionMethod;
    SafeAtoms(w, a);
    if e.loop.For? {
      EvalSafe(w, a, ns, Taken, e.head, env, st, fuel);
      var r := Eval(w, Taken, e.head, env, st, fuel);
      if r.Ok? {
        IterateSafe(w, a, ns, e, r.value, env, r.st, fuel);
      }
    } else {
      IterateSafe(w, a, ns, e, Atom(0), env, st, fuel);
    }
  }

  lemma ReadFromSafe(w: World, a: Watch, st: State, r: Result<Place>)
    requires SafeAt(w, a, st, r)
    ensures Safe(w, a, st, ReadFrom(r))
  {
    hide SafeV, ReadAt;
    if r.Ok? {
      ReadSafe(w, a, r.value, r.st);
    }
  }

  lemma EvalMethodSafe(w: World, a: Watch, ns: set<string>, how: Kind, e: Expr, env: Env, st: State, fuel: nat)
    requires SafeSt(w, a, st) && Knows(a, ns, env) && Only(w.modes, ns, a.allowed, how, e) && e.MethodCall?
    ensures Safe(w, a, st, Eval(w, how, e, env, st, fuel))
    decreases fuel, 2, e, 0
  {
    hide EvalPlace, EvalList, RunMethod, SafeV, IsMutatingCollectionMethod;
    PlaceSafe(w, a, ns, Through, e.base, env, st, fuel);
    PlaceRoot(w, Through, e.base, env, st, fuel);
    var r := EvalPlace(w, Through, e.base, env, st, fuel);
    if r.Ok? {
      ListSafe(w, a, ns, None, 0, false, e.args, env, r.st, fuel);
      var l := EvalList(w, None, 0, false, e.args, env, r.st, fuel);
      if l.Ok? {
        if r.value.At? && r.value.slot == a.slot {
          assert AssignTargetRoot(e.base).value in NamesOf(env, a.slot);
        }
        MethodSafe(w, a, e.name, r.value, l.value, l.st, fuel);
      }
    }
  }

  lemma {:induction false} ListSafe(w: World, a: Watch, ns: set<string>, callee: Option<Expr>, i: nat, lazy: bool,
          es: Exprs, env: Env, st: State, fuel: nat)
    requires SafeSt(w, a, st) && Knows(a, ns, env) && OnlyL(w.modes, ns, a.allowed, callee, i, es)
    ensures SafeList(w, a, st, EvalList(w, callee, i, lazy, es, env, st, fuel))
    decreases fuel, 2, es, 0
  {
    hide Eval, SafeV, Only;
    if es.ECons? {
      var how := Passed(w.modes, callee, i);
      EvalSafe(w, a, ns, how, es.head, env, st, fuel);
      var r := Eval(w, how, es.head, env, st, fuel);
      if r.Ok? && !(lazy && Roll(w, r.st).n == 0) {
        ListSafe(w, a, ns, callee, i + 1, lazy, es.tail, env, Tick(r.st), fuel);
      }
    }
  }

  lemma {:induction false} ArmsSafe(w: World, a: Watch, ns: set<string>, v: Value, arms: Arms, env: Env, st: State,
          fuel: nat)
    requires SafeSt(w, a, st) && SafeV(w, a, v) && Knows(a, ns, env) && OnlyArms(w.modes, ns, a.allowed, arms)
    ensures Safe(w, a, st, EvalArms(w, v, arms, env, st, fuel))
    decreases fuel, 2, arms, 0
  {
    hide Eval, SafeV, Only, Bind;
    if arms.Arm? {
      if Roll(w, st).n == 0 {
        ArmsSafe(w, a, ns, v, arms.others, env, Tick(st), fuel);
      } else {
        BindSafe(w, a, ns, arms.names, v, env, Tick(st));
        var bound := Bind(w, arms.names, v, env, Tick(st));
        EvalSafe(w, a, ns, Taken, arms.guard, bound.0, bound.1, fuel);
        var r := Eval(w, Taken, arms.guard, bound.0, bound.1, fuel);
        if r.Ok? {
          if Roll(w, r.st).n == 0 {
            ArmsSafe(w, a, ns, v, arms.others, env, Tick(r.st), fuel);
          } else {
            EvalSafe(w, a, ns, Taken, arms.body, bound.0, Tick(r.st), fuel);
          }
        }
      }
    }
  }

  lemma {:induction false} IterateSafe(w: World, a: Watch, ns: set<string>, e: Expr, v: Value, env: Env, st: State,
          fuel: nat)
    requires e.Loop? && SafeSt(w, a, st) && SafeV(w, a, v) && Knows(a, ns, env)
    requires Only(w.modes, ns, a.allowed, HeadKind(e.loop.WhileLet?), e.head) && OnlyB(w.modes, ns, a.allowed, e.body)
    ensures Safe(w, a, st, Iterate(w, e, v, env, st, fuel))
    decreases fuel, 2, e, 0
  {
    hide Eval, SafeV, Only, OnlyB, Bind, EvalBlock;
    SafeAtoms(w, a);
    if fuel > 0 {
      EvalSafe(w, a, ns, HeadKind(e.loop.WhileLet?), e.head, env, st, fuel - 1);
      var r := LoopHead(w, e, v, env, st, fuel - 1);
      if r.Ok? && (e.loop.Forever? || Roll(w, r.st).n != 0) {
        BindSafe(w, a, ns, LoopNames(e.loop), r.value, env, Tick(r.st));
        var bound := Bind(w, LoopNames(e.loop), r.value, env, Tick(r.st));
        BlockSafe(w, a, ns, e.body, bound.0, bound.1, fuel - 1);
        var b := EvalBlock(w, e.body, bound.0, bound.1, fuel - 1);
        IterateSafe(w, a, ns, e, v, env, b.st, fuel - 1);
      }
    }
  }

  // ── Blocks ───────────────────────────────────────────────────────

  lemma BlockSafe(w: World, a: Watch, ns: set<string>, b: Block, env: Env, st: State, fuel: nat)
    requires SafeSt(w, a, st) && Knows(a, ns, env) && OnlyB(w.modes, ns, a.allowed, b)
    ensures Safe(w, a, st, EvalBlock(w, b, env, st, fuel))
    decreases fuel, 2, b, 1
  {
    StmtsSafe(w, a, ns, b, env, st, [], fuel);
  }

  lemma {:induction false} StmtsSafe(w: World, a: Watch, ns: set<string>, b: Block, env: Env, st: State,
          pending: seq<Cleanup>, fuel: nat)
    requires SafeSt(w, a, st) && Knows(a, ns, env) && OnlyB(w.modes, ns, a.allowed, b) && SafePending(w, a, ns, pending)
    ensures Safe(w, a, st, EvalStmts(w, b, env, st, pending, fuel))
    decreases fuel, 2, b, 0
  {
    hide Eval, EvalBlock, EvalList, EvalAssign, EvalTargets, Leave, Bind, SafeV, Only, OnlyL, OnlyTargets, OnlyTarget;
    SafeAtoms(w, a);
    match b
    case Final(e) =>
      EvalSafe(w, a, ns, Taken, e, env, st, fuel);
      LeaveSafe(w, a, ns, st, Eval(w, Taken, e, env, st, fuel), pending, fuel);
    case Then(s, rest) =>
      match s
      case Let(names, v) =>
        EvalSafe(w, a, ns, Taken, v, env, st, fuel);
        var r := Eval(w, Taken, v, env, st, fuel);
        if r.Ok? {
          BindSafe(w, a, ns, names, r.value, env, r.st);
          var bound := Bind(w, names, r.value, env, r.st);
          StmtsSafe(w, a, ns, rest, bound.0, bound.1, pending, fuel);
        } else {
          LeaveSafe(w, a, ns, st, r, pending, fuel);
        }
      case LetUninit(n) =>
        BindSafe(w, a, ns, [n], Atom(0), env, st);
        var bound := Bind(w, [n], Atom(0), env, st);
        StmtsSafe(w, a, ns, rest, bound.0, bound.1, pending, fuel);
      case LetElse(names, v, o) =>
        EvalSafe(w, a, ns, Taken, v, env, st, fuel);
        var r := Eval(w, Taken, v, env, st, fuel);
        if r.Ended? {
          LeaveSafe(w, a, ns, st, r, pending, fuel);
        } else if Roll(w, r.st).n == 0 {
          BlockSafe(w, a, ns, o, env, Tick(r.st), fuel);
          LeaveSafe(w, a, ns, st, EvalBlock(w, o, env, Tick(r.st), fuel), pending, fuel);
        } else {
          BindSafe(w, a, ns, names, r.value, env, Tick(r.st));
          var bound := Bind(w, names, r.value, env, Tick(r.st));
          StmtsSafe(w, a, ns, rest, bound.0, bound.1, pending, fuel);
        }
      case Defer(onError, body) => StmtsSafe(w, a, ns, rest, env, st, pending + [Cleanup(onError, body, env)], fuel);
      case Assign(compound, t, v) =>
        EvalSafe(w, a, ns, Taken, v, env, st, fuel);
        var r := Eval(w, Taken, v, env, st, fuel);
        if r.Ok? {
          var x := if compound then Atom(Roll(w, r.st).n) else r.value;
          AssignSafe(w, a, ns, t, x, env, Tick(r.st), fuel);
          StmtSafe(w, a, ns, st, Tick(r.st), EvalAssign(w, t, x, env, Tick(r.st), fuel), rest, env, pending, fuel);
        } else {
          LeaveSafe(w, a, ns, st, r, pending, fuel);
        }
      case MultiAssign(ts, vs) =>
        ListSafe(w, a, ns, None, 0, false, vs, env, st, fuel);
        var l := EvalList(w, None, 0, false, vs, env, st, fuel);
        if l.Ok? {
          TargetsSafe(w, a, ns, ts, l.value, env, l.st, fuel);
          StmtSafe(w, a, ns, st, l.st, EvalTargets(w, ts, l.value, env, l.st, fuel), rest, env, pending, fuel);
        } else {
          LeaveSafe(w, a, ns, st, Ended(l.how, l.st), pending, fuel);
        }
      case Do(e) =>
        EvalSafe(w, a, ns, Taken, e, env, st, fuel);
        StmtSafe(w, a, ns, st, st, Eval(w, Taken, e, env, st, fuel), rest, env, pending, fuel);
  }

  /** A statement's result, and the rest of the block or its end. */
  lemma {:induction false} StmtSafe(w: World, a: Watch, ns: set<string>, st: State, mid: State, r: Result<Value>,
          rest: Block, env: Env, pending: seq<Cleanup>, fuel: nat)
    requires Kept(a, st, mid) && Safe(w, a, mid, r) && Knows(a, ns, env) && OnlyB(w.modes, ns, a.allowed, rest) &&
        SafePending(w, a, ns, pending)
    ensures r.Ok? ==> Safe(w, a, st, EvalStmts(w, rest, env, r.st, pending, fuel))
    ensures r.Ended? ==> Safe(w, a, st, Leave(w, r, pending, fuel))
    decreases fuel, 2, rest, 1
  {
    hide SafeV, OnlyB, EvalStmts, Leave;
    if r.Ok? {
      StmtsSafe(w, a, ns, rest, env, r.st, pending, fuel);
    } else {
      LeaveSafe(w, a, ns, st, r, pending, fuel);
    }
  }

  lemma LeaveSafe(w: World, a: Watch, ns: set<string>, st: State, r: Result<Value>, pending: seq<Cleanup>, fuel: nat)
    requires Safe(w, a, st, r) && SafePending(w, a, ns, pending)
    ensures Safe(w, a, st, Leave(w, r, pending, fuel))
    decreases fuel, 1
  {
    hide SafeV, OnlyB, RunCleanups;
    if !(r.Ended? && r.how.CutShort?) {
      var failed := r.Ended? && (r.how.Raised? || (r.how.Returned? && Roll(w, r.st).n == 0));
      var errors := if failed then pending else [];
      CleanupsSafe(w, a, ns, errors, true, Tick(r.st), fuel);
      var c := RunCleanups(w, errors, true, Tick(r.st), fuel);
      CleanupsSafe(w, a, ns, pending, false, c.st, fuel);
    }
  }

  lemma {:induction false} CleanupsSafe(w: World, a: Watch, ns: set<string>, pending: seq<Cleanup>, onError: bool,
          st: State, fuel: nat)
    requires SafeSt(w, a, st) && SafePending(w, a, ns, pending)
    ensures Safe(w, a, st, RunCleanups(w, pending, onError, st, fuel))
    decreases fuel, 0, |pending|
  {
    hide SafeV, OnlyB, EvalBlock;
    SafeAtoms(w, a);
    if pending != [] {
      var front, last := pending[..|pending| - 1], pending[|pending| - 1];
      if last.onError != onError {
        CleanupsSafe(w, a, ns, front, onError, st, fuel);
      } else if fuel > 0 {
        BlockSafe(w, a, ns, last.body, last.env, st, fuel - 1);
        CleanupsSafe(w, a, ns, front, onError, EvalBlock(w, last.body, last.env, st, fuel - 1).st, fuel);
      }
    }
  }

  // ── Logs ─────────────────────────────────────────────────────────

  function AllKinds(): set<Kind> {
    {Taken, Through, Scrutinised, Lent, Captured, Replaced, Altered}
  }

  /** Everything is allowed if all kinds are. */
  lemma {:induction false} OnlyAll(m: Modes, ns: set<string>, how: Kind, e: Expr)
    ensures Only(m, ns, AllKinds(), how, e)
    decreases e, 0
  {
    match e
    case Lit =>
    case Name(_) =>
    case Project(o, _) => OnlyAll(m, ns, Through, o);
    case Index(o, i) => OnlyAll(m, ns, Through, o); OnlyAll(m, ns, Taken, i);
    case MethodCall(o, _, args) => OnlyAll(m, ns, Through, o); OnlyAllL(m, ns, None, 0, args);
    case OptionalChain(o, args) => OnlyAll(m, ns, Through, o); OnlyAllL(m, ns, None, 0, args);
    case Call(c, args) => OnlyAll(m, ns, Taken, c); OnlyAllL(m, ns, Some(c), 0, args);
    case Group(_, items) => OnlyAllL(m, ns, None, 0, items);
    case Jump(_, _, v) => OnlyAll(m, ns, Taken, v);
    case BlockE(_, b) => OnlyAllB(m, ns, b);
    case If(p, c, t, f) => OnlyAll(m, ns, HeadKind(p.Some?), c); OnlyAllB(m, ns, t); OnlyAll(m, ns, Taken, f);
    case Match(s, arms) => OnlyAll(m, ns, Scrutinised, s); OnlyAllArms(m, ns, arms);
    case Loop(_, l, h, b) => OnlyAll(m, ns, HeadKind(l.WhileLet?), h); OnlyAllB(m, ns, b);
    case Scoped(_, hs, b) => OnlyAllL(m, ns, None, 0, hs); OnlyAllB(m, ns, b);
    case Closure(_, c) => OnlyAll(m, ns, Taken, c);
  }

  lemma {:induction false} OnlyAllL(m: Modes, ns: set<string>, callee: Option<Expr>, i: nat, es: Exprs)
    ensures OnlyL(m, ns, AllKinds(), callee, i, es)
    decreases es, 0
  {
    if es.ECons? {
      OnlyAll(m, ns, Passed(m, callee, i), es.head);
      OnlyAllL(m, ns, callee, i + 1, es.tail);
    }
  }

  lemma {:induction false} OnlyAllArms(m: Modes, ns: set<string>, arms: Arms)
    ensures OnlyArms(m, ns, AllKinds(), arms)
    decreases arms, 0
  {
    if arms.Arm? {
      OnlyAll(m, ns, Taken, arms.guard);
      OnlyAll(m, ns, Taken, arms.body);
      OnlyAllArms(m, ns, arms.others);
    }
  }

  lemma {:induction false} OnlyAllB(m: Modes, ns: set<string>, b: Block)
    ensures OnlyB(m, ns, AllKinds(), b)
    decreases b, 0
  {
    match b
    case Final(e) => OnlyAll(m, ns, Taken, e);
    case Then(s, rest) => OnlyAllS(m, ns, s); OnlyAllB(m, ns, rest);
  }

  lemma {:induction false} OnlyAllS(m: Modes, ns: set<string>, s: Stmt)
    ensures OnlyS(m, ns, AllKinds(), s)
    decreases s, 0
  {
    match s
    case Let(_, v) => OnlyAll(m, ns, Taken, v);
    case LetUninit(_) =>
    case LetElse(_, v, b) => OnlyAll(m, ns, Taken, v); OnlyAllB(m, ns, b);
    case Defer(_, b) => OnlyAllB(m, ns, b);
    case Assign(_, t, v) => OnlyAll(m, ns, Replaced, t); OnlyAll(m, ns, Taken, v);
    case MultiAssign(ts, vs) => OnlyAllTargets(m, ns, ts); OnlyAllL(m, ns, None, 0, vs);
    case Do(e) => OnlyAll(m, ns, Taken, e);
  }

  lemma {:induction false} OnlyAllTargets(m: Modes, ns: set<string>, ts: Exprs)
    ensures OnlyTargets(m, ns, AllKinds(), ts)
    decreases ts, 0
  {
    if ts.ECons? {
      OnlyAll(m, ns, Replaced, ts.head);
      OnlyAllTargets(m, ns, ts.tail);
    }
  }

  lemma {:induction false} SafeAll(w: World, slot: nat, v: Value)
    ensures SafeV(w, Watch(slot, AllKinds()), v)
  {
    match v
    case Atom(_) =>
    case Tup(parts, _) =>
      forall i | 0 <= i < |parts|
        ensures SafeV(w, Watch(slot, AllKinds()), parts[i])
      {
        SafeAll(w, slot, parts[i]);
      }
    case Fun(_, c, env) => OnlyAll(w.modes, NamesOf(env, slot), Taken, c);
  }

  lemma SafeStAll(w: World, slot: nat, st: State)
    requires slot < |st.store|
    ensures SafeSt(w, Watch(slot, AllKinds()), st)
  {
    hide SafeV;
    forall i | 0 <= i < |st.store|
      ensures SafeV(w, Watch(slot, AllKinds()), st.store[i])
    {
      SafeAll(w, slot, st.store[i]);
    }
  }

  /** What a run of an expression logs is kept, and the store does not shrink. */
  lemma EvalGrows(w: World, how: Kind, e: Expr, env: Env, st: State, fuel: nat)
    requires st.store != []
    ensures var st' := Eval(w, how, e, env, st, fuel).st; st.log <= st'.log && |st.store| <= |st'.store|
  {
    hide Eval, Only, SafeV;
    OnlyAll(w.modes, env.Keys, how, e);
    SafeStAll(w, 0, st);
    EvalSafe(w, Watch(0, AllKinds()), env.Keys, how, e, env, st, fuel);
  }

  lemma BlockGrows(w: World, b: Block, env: Env, st: State, fuel: nat)
    requires st.store != []
    ensures var st' := EvalBlock(w, b, env, st, fuel).st; st.log <= st'.log && |st.store| <= |st'.store|
  {
    hide EvalBlock, OnlyB, SafeV;
    OnlyAllB(w.modes, env.Keys, b);
    SafeStAll(w, 0, st);
    BlockSafe(w, Watch(0, AllKinds()), env.Keys, b, env, st, fuel);
  }

  lemma ArmsGrow(w: World, v: Value, arms: Arms, env: Env, st: State, fuel: nat)
    requires st.store != []
    ensures var st' := EvalArms(w, v, arms, env, st, fuel).st; st.log <= st'.log && |st.store| <= |st'.store|
  {
    hide EvalArms, OnlyArms, SafeV;
    OnlyAllArms(w.modes, env.Keys, arms);
    SafeStAll(w, 0, st);
    SafeAll(w, 0, v);
    ArmsSafe(w, Watch(0, AllKinds()), env.Keys, v, arms, env, st, fuel);
  }

  lemma IterateGrows(w: World, e: Expr, v: Value, env: Env, st: State, fuel: nat)
    requires st.store != [] && e.Loop?
    ensures var st' := Iterate(w, e, v, env, st, fuel).st; st.log <= st'.log && |st.store| <= |st'.store|
  {
    hide Iterate, Only, OnlyB, SafeV;
    OnlyAll(w.modes, env.Keys, HeadKind(e.loop.WhileLet?), e.head);
    OnlyAllB(w.modes, env.Keys, e.body);
    SafeStAll(w, 0, st);
    SafeAll(w, 0, v);
    IterateSafe(w, Watch(0, AllKinds()), env.Keys, e, v, env, st, fuel);
  }

  lemma BindGrows(w: World, names: seq<string>, v: Value, env: Env, st: State)
    requires st.store != []
    ensures var st' := Bind(w, names, v, env, st).1; st.log <= st'.log && |st.store| <= |st'.store|
  {
    hide Bind, SafeV;
    SafeStAll(w, 0, st);
    SafeAll(w, 0, v);
    BindSafe(w, Watch(0, AllKinds()), env.Keys, names, v, env, st);
  }

  /** A name at the head of `if let` or `match` is matched on, one at the head of `if` is
      read as a value, in every run. */
  lemma HeadLogged(w: World, how: Kind, e: Expr, x: string, env: Env, st: State, fuel: nat)
    requires x in env && st.store != []
    requires (e.If? && e.cond == Name(x)) || (e.Match? && e.scrutinee == Name(x))
    ensures var k := if e.If? && e.pat.None? then Taken else Scrutinised;
      Event(env[x], k) in Eval(w, how, e, env, st, fuel).st.log
  {
    hide EvalBlock, EvalArms, Bind;
    match e
    case If(p, _, t, f) =>
      var k := if p.None? then Taken else Scrutinised;
      var st1 := Note(st, env[x], k);
      assert Eval(w, k, Name(x), env, st, fuel) == Ok(Load(st, env[x]), st1);
      if Roll(w, st1).n == 0 {
        EvalGrows(w, Taken, f, env, Tick(st1), fuel);
      } else {
        var names := if p.Some? then p.value else [];
        BindGrows(w, names, Load(st, env[x]), env, Tick(st1));
        var bound := Bind(w, names, Load(st, env[x]), env, Tick(st1));
        BlockGrows(w, t, bound.0, bound.1, fuel);
      }
    case Match(_, arms) =>
      var st1 := Note(st, env[x], Scrutinised);
      assert Eval(w, Scrutinised, Name(x), env, st, fuel) == Ok(Load(st, env[x]), st1);
      ArmsGrow(w, Load(st, env[x]), arms, env, st1, fuel);
  }

  /** The same for `while let` and `while`, once there is fuel for the head. */
  lemma LoopHeadLogged(w: World, how: Kind, e: Expr, x: string, env: Env, st: State, fuel: nat)
    requires x in env && st.store != [] && fuel > 0
    requires e.Loop? && (e.loop.While? || e.loop.WhileLet?) && e.head == Name(x)
    ensures Event(env[x], if e.loop.While? then Taken else Scrutinised) in Eval(w, how, e, env, st, fuel).st.log
  {
    hide EvalBlock, Bind, LoopNames;
    var k := if e.loop.While? then Taken else Scrutinised;
    var v, st1 := Load(st, env[x]), Note(st, env[x], k);
    assert LoopHead(w, e, Atom(0), env, st, fuel - 1) == Ok(v, st1);
    var r := Iterate(w, e, Atom(0), env, st, fuel);
    assert Eval(w, how, e, env, st, fuel) == r;
    hide Eval, LoopHead;
    if Roll(w, st1).n != 0 {
      BindGrows(w, LoopNames(e.loop), v, env, Tick(st1));
      var bound := Bind(w, LoopNames(e.loop), v, env, Tick(st1));
      BlockGrows(w, e.body, bound.0, bound.1, fuel - 1);
      var b := EvalBlock(w, e.body, bound.0, bound.1, fuel - 1);
      IterateGrows(w, e, Atom(0), env, b.st, fuel - 1);
    }
  }
}
