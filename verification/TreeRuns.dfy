/** An interpreter for the tree of `TreeSyntax`, with closures, early exits and
    cleanups, and what any run of it does to one variable. Whatever the tree does
    not settle (values, branches, matches, iterations, callbacks of unknown
    callees) is up to the world's chances, so a statement about every world is one
    about every run. */
module TreeRuns {
  import opened Options
  import opened TreeSyntax

  /** A name stands for a slot of the store. */
  type Env = map<string, nat>

  datatype Value =
    | Atom(n: nat)
    | Tup(parts: seq<Value>, room: nat)                   // tuples and collections, with reserved room
    | Fun(params: seq<string>, code: Expr, env: Env)      // captures by reference

  /** What happened to a slot. */
  datatype Event = Event(slot: nat, kind: Kind)

  datatype Chance = Chance(n: nat, ns: seq<nat>)

  datatype World = World(chance: nat -> Chance, modes: Modes)

  datatype State = State(store: seq<Value>, clock: nat, log: set<Event>)

  datatype Ending = Broke(target: Label, v: Value) | Continued(target: Label) | Returned(v: Value) | Raised | CutShort

  datatype Result<+T> = Ok(value: T, st: State) | Ended(how: Ending, st: State)

  datatype Place = At(slot: nat, path: seq<nat>) | Temp(v: Value)

  datatype Cleanup = Cleanup(onError: bool, body: Block, env: Env)

  // ── Values and the store ─────────────────────────────────────────

  function Get(v: Value, path: seq<nat>): Value
    decreases |path|
  {
    if path == [] then v
    else if v.Tup? && path[0] < |v.parts| then Get(v.parts[path[0]], path[1..])
    else Atom(0)
  }

  function Put(v: Value, path: seq<nat>, x: Value): Value
    decreases |path|
  {
    if path == [] then x
    else if v.Tup? && path[0] < |v.parts| then v.(parts := v.parts[path[0] := Put(v.parts[path[0]], path[1..], x)])
    else v
  }

  /** Something made of the values of a pool: all of them, a part of one, or an atom. */
  function Pick(pool: seq<Value>, c: Chance): Value {
    if c.n == 0 then Tup(pool, 0) else if c.ns == [] then Atom(c.n) else Get(Tup(pool, 0), c.ns)
  }

  function Roll(w: World, st: State): Chance {
    w.chance(st.clock)
  }

  function Tick(st: State): State {
    st.(clock := st.clock + 1)
  }

  function Load(st: State, slot: nat): Value {
    if slot < |st.store| then st.store[slot] else Atom(0)
  }

  function Note(st: State, slot: nat, kind: Kind): State {
    st.(log := st.log + {Event(slot, kind)})
  }

  function ReadAt(p: Place, st: State): Value {
    match p case At(slot, path) => Get(Load(st, slot), path) case Temp(v) => v
  }

  function Sub(p: Place, i: nat): Place {
    match p case At(slot, path) => At(slot, path + [i]) case Temp(v) => Temp(Get(v, [i]))
  }

  /** Writes to a place; other than to a whole variable, it alters the variable at the root. */
  function Store(p: Place, whole: bool, v: Value, st: State): State {
    match p
    case Temp(_) => st
    case At(slot, path) =>
      var st1 := if whole then st else Note(st, slot, Altered);
      if slot < |st1.store| then st1.(store := st1.store[slot := Put(st1.store[slot], path, v)]) else st1
  }

  /** Gives each name of a pattern a slot of its own, holding some part of the value. */
  function Bind(w: World, names: seq<string>, v: Value, env: Env, st: State): (Env, State)
    decreases |names|
  {
    if names == [] then (env, st)
    else Bind(w, names[1..], v, env[names[0] := |st.store|], Tick(st.(store := st.store + [Get(v, Roll(w, st).ns)])))
  }

  function BindParams(params: seq<string>, vs: seq<Value>, env: Env, st: State): (Env, State)
    decreases |params|
  {
    if params == [] then (env, st)
    else
      BindParams(params[1..], if vs == [] then [] else vs[1..], env[params[0] := |st.store|],
                 st.(store := st.store + [if vs == [] then Atom(0) else vs[0]]))
  }

  /** The part of an environment that a closure's code mentions. */
  function Captures(code: Expr, env: Env): Env {
    map n | n in env && Mentions({n}, code) :: env[n]
  }

  function Capture(code: Expr, env: Env, st: State): State {
    st.(log := st.log + set n | n in env && Mentions({n}, code) :: Event(env[n], Captured))
  }

  // ── Built-in methods of collections ──────────────────────────────

  function Arg(vs: seq<Value>, k: nat): Value {
    if k < |vs| then vs[k] else Atom(0)
  }

  function Number(v: Value): nat {
    if v.Atom? then v.n else 0
  }

  function Parts(v: Value): seq<Value> {
    if v.Tup? then v.parts else []
  }

  function Smaller(a: nat, b: nat): nat {
    if a < b then a else b
  }

  function Reversed(s: seq<Value>): seq<Value> {
    if s == [] then [] else Reversed(s[1..]) + [s[0]]
  }

  /** Those that the chances keep. */
  function Retained(s: seq<Value>, ns: seq<nat>): seq<Value> {
    if s == [] then []
    else (if ns != [] && ns[0] == 0 then [] else [s[0]]) + Retained(s[1..], if ns == [] then [] else ns[1..])
  }

  /** An order that the chances pick, by swaps. */
  function Rearranged(s: seq<Value>, ns: seq<nat>): seq<Value>
    decreases |ns|
  {
    if |ns| < 2 then s else Rearranged(Swapped(s, ns[0], ns[1]), ns[2..])
  }

  function Swapped(s: seq<Value>, i: nat, j: nat): seq<Value> {
    if i < |s| && j < |s| then s[i := s[j]][j := s[i]] else s
  }

  /** Without repetitions in a row. */
  function Deduped(s: seq<Value>): seq<Value> {
    if |s| < 2 then s else (if s[0] == s[1] then [] else [s[0]]) + Deduped(s[1..])
  }

  function Filled(n: nat, x: Value): seq<Value> {
    seq(n, _ => x)
  }

  /** The built-in methods that write their receivers, by what they write. */
  datatype Writer =
    | AddLast | AddFirst | DropLast | DropFirst | AddAll | AddAt | AddAllAt | DropAt | SwapOut | DropAll | Cut | Fit
    | Reserve | Reverse | Sort | Swap | Keep | Dedup | Fill

  /** All other methods, such as `len`, `get`, `iter`, `contains` and `first`, write nothing. */
  function WriterOf(name: string): Option<Writer> {
    match name
    case "push" => Some(AddLast)
    case "push_back" => Some(AddLast)
    case "push_front" => Some(AddFirst)
    case "pop" => Some(DropLast)
    case "pop_back" => Some(DropLast)
    case "pop_front" => Some(DropFirst)
    case "push_str" => Some(AddAll)
    case "extend" => Some(AddAll)
    case "append" => Some(AddAll)
    case "insert" => Some(AddAt)
    case "insert_str" => Some(AddAllAt)
    case "remove" => Some(DropAt)
    case "swap_remove" => Some(SwapOut)
    case "clear" => Some(DropAll)
    case "truncate" => Some(Cut)
    case "split_off" => Some(Cut)
    case "resize" => Some(Fit)
    case "reserve" => Some(Reserve)
    case "reserve_exact" => Some(Reserve)
    case "reverse" => Some(Reverse)
    case "sort" => Some(Sort)
    case "sort_by" => Some(Sort)
    case "sort_by_key" => Some(Sort)
    case "swap" => Some(Swap)
    case "retain" => Some(Keep)
    case "dedup" => Some(Dedup)
    case "fill" => Some(Fill)
    case _ => None
  }

  /** The new parts of a collection; callbacks and comparisons are up to the chances. */
  function NewParts(k: Writer, s: seq<Value>, vs: seq<Value>, ns: seq<nat>): seq<Value> {
    var x, n := Arg(vs, 0), Number(Arg(vs, 0));
    var i := Smaller(n, |s|);
    match k
    case AddLast => s + [x]
    case AddFirst => [x] + s
    case DropLast => if s == [] then s else s[..|s| - 1]
    case DropFirst => if s == [] then s else s[1..]
    case AddAll => s + Parts(x)
    case AddAt => if |vs| < 2 then s + [x] else s[..i] + [vs[1]] + s[i..]
    case AddAllAt => s[..i] + Parts(Arg(vs, 1)) + s[i..]
    case DropAt => if n < |s| then s[..n] + s[n + 1..] else s
    case SwapOut => if n < |s| then s[n := s[|s| - 1]][..|s| - 1] else s
    case DropAll => []
    case Cut => s[..i]
    case Fit => s[..i] + Filled(n - i, Arg(vs, 1))
    case Reserve => s
    case Reverse => Reversed(s)
    case Sort => Rearranged(s, ns)
    case Swap => Swapped(s, n, Number(Arg(vs, 1)))
    case Keep => Retained(s, ns)
    case Dedup => Deduped(s)
    case Fill => Filled(|s|, x)
  }

  /** What a method writes to its receiver, if it is a built-in one that writes it. */
  function BuiltIn(name: string, v: Value, vs: seq<Value>, c: Chance): Option<Value> {
    if !v.Tup? || WriterOf(name).None? then None
    else if WriterOf(name) == Some(Reserve) then
      var wanted := |v.parts| + Number(Arg(vs, 0));
      Some(v.(room := if v.room < wanted then wanted else v.room))
    else Some(v.(parts := NewParts(WriterOf(name).value, v.parts, vs, c.ns)))
  }

  // ── Runs ─────────────────────────────────────────────────────────

  predicate IsPlace(e: Expr) {
    e.Project? || e.Index?
  }

  /** The value of an expression; a name that stands alone is looked at in the way `how`.
      Fuel bounds the nesting of calls, iterations and cleanups. */
  function Eval(w: World, how: Kind, e: Expr, env: Env, st: State, fuel: nat): Result<Value>
    decreases fuel, 2, e, if IsPlace(e) then 3 else 1
  {
    match e
    case Lit => Ok(Atom(Roll(w, st).n), Tick(st))
    case Name(n) => if n in env then Ok(Load(st, env[n]), Note(st, env[n], how)) else Ok(Atom(Roll(w, st).n), Tick(st))
    case Project(_, _) => ReadFrom(EvalPlace(w, how, e, env, st, fuel))
    case Index(_, _) => ReadFrom(EvalPlace(w, how, e, env, st, fuel))
    case MethodCall(o, name, args) =>
      (match EvalPlace(w, Through, o, env, st, fuel)
       case Ended(h, st1) => Ended(h, st1)
       case Ok(p, st1) =>
         match EvalList(w, None, 0, false, args, env, st1, fuel)
         case Ended(h, st2) => Ended(h, st2)
         case Ok(vs, st2) => RunMethod(w, name, p, vs, st2, fuel))
    case OptionalChain(o, args) =>
      (match Eval(w, Through, o, env, st, fuel)
       case Ended(h, st1) => Ended(h, st1)
       case Ok(v, st1) =>
         if Roll(w, st1).n == 0 then Ok(Atom(0), Tick(st1))
         else
           match EvalList(w, None, 0, false, args, env, Tick(st1), fuel)
           case Ended(h, st2) => Ended(h, st2)
           case Ok(vs, st2) => Opaque(w, [v] + vs, st2, fuel))
    case Call(c, args) =>
      (match Eval(w, Taken, c, env, st, fuel)
       case Ended(h, st1) => Ended(h, st1)
       case Ok(f, st1) =>
         match EvalList(w, Some(c), 0, false, args, env, st1, fuel)
         case Ended(h, st2) => Ended(h, st2)
         case Ok(vs, st2) => if f.Fun? then Apply(w, f, vs, st2, fuel) else Opaque(w, vs, st2, fuel))
    case Group(form, items) =>
      (match EvalList(w, None, 0, form.Lazy?, items, env, st, fuel)
       case Ended(h, st1) => Ended(h, st1)
       case Ok(vs, st1) => Check(w, form, Opaque(w, vs, st1, fuel)))
    case Jump(kind, target, v) =>
      (match Eval(w, Taken, v, env, st, fuel)
       case Ended(h, st1) => Ended(h, st1)
       case Ok(x, st1) => Ended(JumpEnding(kind, target, x), st1))
    case BlockE(c, b) => Stopped(c, EvalBlock(w, b, env, st, fuel))
    case If(p, c, t, f) =>
      (match Eval(w, if p.Some? then Scrutinised else Taken, c, env, st, fuel)
       case Ended(h, st1) => Ended(h, st1)
       case Ok(v, st1) =>
         if Roll(w, st1).n == 0 then Eval(w, Taken, f, env, Tick(st1), fuel)
         else
           var bound := Bind(w, if p.Some? then p.value else [], v, env, Tick(st1));
           EvalBlock(w, t, bound.0, bound.1, fuel))
    case Match(s, arms) =>
      (match Eval(w, Scrutinised, s, env, st, fuel)
       case Ended(h, st1) => Ended(h, st1)
       case Ok(v, st1) => EvalArms(w, v, arms, env, st1, fuel))
    case Loop(_, l, h, _) =>
      if l.For? then
        match Eval(w, Taken, h, env, st, fuel)
        case Ended(h, st1) => Ended(h, st1)
        case Ok(v, st1) => Iterate(w, e, v, env, st1, fuel)
      else Iterate(w, e, Atom(0), env, st, fuel)
    case Scoped(_, hs, b) =>
      (match EvalList(w, None, 0, false, hs, env, st, fuel)
       case Ended(h, st1) => Ended(h, st1)
       case Ok(_, st1) => EvalBlock(w, b, env, st1, fuel))
    case Closure(params, c) => Ok(Fun(params, c, Captures(c, env)), Capture(c, env, st))
  }

  function ReadFrom(r: Result<Place>): Result<Value> {
    match r case Ended(h, st) => Ended(h, st) case Ok(p, st) => Ok(ReadAt(p, st), st)
  }

  function JumpEnding(kind: JumpKind, target: Label, v: Value): Ending {
    match kind case Return => Returned(v) case Break => Broke(target, v) case Continue => Continued(target)
  }

  function Check(w: World, form: Form, r: Result<Value>): Result<Value> {
    if r.Ended? || !form.Question? then r
    else if Roll(w, r.st).n == 0 then Ended(Raised, Tick(r.st))
    else Ok(r.value, Tick(r.st))
  }

  function Stopped(c: Catch, r: Result<Value>): Result<Value> {
    if r.Ended? && c.Errors? && r.how.Raised? then Ok(Atom(0), r.st)
    else if r.Ended? && c.Breaks? && r.how.Broke? && r.how.target == Some(c.at) then Ok(r.how.v, r.st)
    else r
  }

  /** Operands from left to right; a lazy form may leave out those behind any of them. */
  function EvalList(w: World, callee: Option<Expr>, i: nat, lazy: bool, es: Exprs, env: Env, st: State,
          fuel: nat): Result<seq<Value>>
    decreases fuel, 2, es, 0
  {
    match es
    case ENil => Ok([], st)
    case ECons(h, t) =>
      match Eval(w, if callee.Some? && w.modes(callee.value, i) then Lent else Taken, h, env, st, fuel)
      case Ended(h, st1) => Ended(h, st1)
      case Ok(v, st1) =>
        if lazy && Roll(w, st1).n == 0 then Ok([v], Tick(st1))
        else
          match EvalList(w, callee, i + 1, lazy, t, env, Tick(st1), fuel)
          case Ended(h, st2) => Ended(h, st2)
          case Ok(vs, st2) => Ok([v] + vs, st2)
  }

  function EvalPlace(w: World, how: Kind, e: Expr, env: Env, st: State, fuel: nat): Result<Place>
    decreases fuel, 2, e, 2
  {
    if e.Name? && e.n in env then Ok(At(env[e.n], []), Note(st, env[e.n], how))
    else if e.Project? then
      match EvalPlace(w, Through, e.base, env, st, fuel)
      case Ended(h, st1) => Ended(h, st1)
      case Ok(p, st1) => Ok(Sub(p, e.field), st1)
    else if e.Index? then
      match EvalPlace(w, Through, e.base, env, st, fuel)
      case Ended(h, st1) => Ended(h, st1)
      case Ok(p, st1) =>
        match Eval(w, Taken, e.index, env, st1, fuel)
        case Ended(h, st2) => Ended(h, st2)
        case Ok(v, st2) => Ok(Sub(p, if v.Atom? then v.n else 0), st2)
    else
      match Eval(w, how, e, env, st, fuel)
      case Ended(h, st1) => Ended(h, st1)
      case Ok(v, st1) => Ok(Temp(v), st1)
  }

  /** A method: it may call the closures that it is given, and a built-in one that
      writes its receiver then does so. */
  function RunMethod(w: World, name: string, p: Place, vs: seq<Value>, st: State, fuel: nat): Result<Value>
    decreases fuel, 1, 1
  {
    var pool := [ReadAt(p, st)] + vs;
    match Opaque(w, pool, st, fuel)
    case Ended(h, st1) => Ended(h, st1)
    case Ok(v, st1) =>
      match BuiltIn(name, ReadAt(p, st1), vs, Roll(w, st1))
      case None => Ok(v, st1)
      case Some(x) => Ok(v, Tick(Store(p, false, x, st1)))
  }

  /** Code that is not modelled: it may call the closures that it is given. */
  function Opaque(w: World, pool: seq<Value>, st: State, fuel: nat): Result<Value>
    decreases fuel, 1, 0
  {
    match Callbacks(w, pool, Roll(w, st).ns, Tick(st), fuel)
    case Ended(h, st1) => Ended(h, st1)
    case Ok(_, st1) => Ok(Pick(pool, Roll(w, st1)), Tick(st1))
  }

  function Callbacks(w: World, pool: seq<Value>, ns: seq<nat>, st: State, fuel: nat): Result<Value>
    decreases fuel, 0, |ns|
  {
    if ns == [] || |pool| == 0 then Ok(Atom(0), st)
    else
      match Apply(w, pool[ns[0] % |pool|], pool, st, fuel)
      case Ended(h, st1) => Ended(h, st1)
      case Ok(_, st1) => Callbacks(w, pool, ns[1..], st1, fuel)
  }

  /** A call of a closure; `return` ends the closure only. */
  function Apply(w: World, f: Value, vs: seq<Value>, st: State, fuel: nat): Result<Value>
    decreases fuel, 0, 0
  {
    if !f.Fun? then Ok(Atom(0), st)
    else if fuel == 0 then Ended(CutShort, st)
    else
      var bound := BindParams(f.params, vs, f.env, st);
      var r := Eval(w, Taken, f.code, bound.0, bound.1, fuel - 1);
      if r.Ok? then r
      else if r.how.Returned? then Ok(r.how.v, r.st)
      else if r.how.Raised? then Ok(Atom(0), r.st)
      else Ended(CutShort, r.st)
  }

  /** The first arm that matches and whose guard holds. */
  function EvalArms(w: World, v: Value, arms: Arms, env: Env, st: State, fuel: nat): Result<Value>
    decreases fuel, 2, arms, 0
  {
    match arms
    case NoArm => Ended(CutShort, st)
    case Arm(names, g, b, others) =>
      if Roll(w, st).n == 0 then EvalArms(w, v, others, env, Tick(st), fuel)
      else
        var bound := Bind(w, names, v, env, Tick(st));
        match Eval(w, Taken, g, bound.0, bound.1, fuel)
        case Ended(h, st1) => Ended(h, st1)
        case Ok(_, st1) =>
          if Roll(w, st1).n == 0 then EvalArms(w, v, others, env, Tick(st1), fuel)
          else Eval(w, Taken, b, bound.0, Tick(st1), fuel)
  }

  function LoopNames(l: LoopKind): seq<string> {
    if l.WhileLet? || l.For? then l.names else []
  }

  predicate Meant(target: Label, lbl: Label) {
    target == None || target == lbl
  }

  /** The iterations of a loop; a `for` loop has its iterable's value already. */
  function Iterate(w: World, e: Expr, v: Value, env: Env, st: State, fuel: nat): Result<Value>
    requires e.Loop?
    decreases fuel, 2, e, 0
  {
    if fuel == 0 then Ended(CutShort, st)
    else
      match LoopHead(w, e, v, env, st, fuel - 1)
      case Ended(h, st1) => Ended(h, st1)
      case Ok(x, st1) =>
        if !e.loop.Forever? && Roll(w, st1).n == 0 then Ok(Atom(0), Tick(st1))
        else
          var bound := Bind(w, LoopNames(e.loop), x, env, Tick(st1));
          var r := EvalBlock(w, e.body, bound.0, bound.1, fuel - 1);
          if r.Ok? || (r.how.Continued? && Meant(r.how.target, e.lbl)) then Iterate(w, e, v, env, r.st, fuel - 1)
          else if r.how.Broke? && Meant(r.how.target, e.lbl) then Ok(r.how.v, r.st)
          else r
  }

  function LoopHead(w: World, e: Expr, v: Value, env: Env, st: State, fuel: nat): Result<Value>
    requires e.Loop?
    decreases fuel, 3
  {
    if e.loop.While? || e.loop.WhileLet? then
      Eval(w, if e.loop.While? then Taken else Scrutinised, e.head, env, st, fuel)
    else Ok(v, st)
  }

  function EvalBlock(w: World, b: Block, env: Env, st: State, fuel: nat): Result<Value>
    decreases fuel, 2, b, 1
  {
    EvalStmts(w, b, env, st, [], fuel)
  }

  /** What is left of a block, with the cleanups registered so far. */
  function EvalStmts(w: World, b: Block, env: Env, st: State, pending: seq<Cleanup>, fuel: nat): Result<Value>
    decreases fuel, 2, b, 0
  {
    match b
    case Final(e) => Leave(w, Eval(w, Taken, e, env, st, fuel), pending, fuel)
    case Then(s, rest) =>
      match s
      case Let(names, v) =>
        (match Eval(w, Taken, v, env, st, fuel)
         case Ended(h, st1) => Leave(w, Ended(h, st1), pending, fuel)
         case Ok(x, st1) =>
           var bound := Bind(w, names, x, env, st1);
           EvalStmts(w, rest, bound.0, bound.1, pending, fuel))
      case LetUninit(n) =>
        var bound := Bind(w, [n], Atom(0), env, st);
        EvalStmts(w, rest, bound.0, bound.1, pending, fuel)
      case LetElse(names, v, o) =>
        (match Eval(w, Taken, v, env, st, fuel)
         case Ended(h, st1) => Leave(w, Ended(h, st1), pending, fuel)
         case Ok(x, st1) =>
           if Roll(w, st1).n == 0 then Leave(w, EvalBlock(w, o, env, Tick(st1), fuel), pending, fuel)
           else
             var bound := Bind(w, names, x, env, Tick(st1));
             EvalStmts(w, rest, bound.0, bound.1, pending, fuel))
      case Defer(onError, body) => EvalStmts(w, rest, env, st, pending + [Cleanup(onError, body, env)], fuel)
      case Assign(compound, t, v) =>
        (match Eval(w, Taken, v, env, st, fuel)
         case Ended(h, st1) => Leave(w, Ended(h, st1), pending, fuel)
         case Ok(x, st1) =>
           match EvalAssign(w, t, if compound then Atom(Roll(w, st1).n) else x, env, Tick(st1), fuel)
           case Ended(h, st2) => Leave(w, Ended(h, st2), pending, fuel)
           case Ok(_, st2) => EvalStmts(w, rest, env, st2, pending, fuel))
      case MultiAssign(ts, vs) =>
        (match EvalList(w, None, 0, false, vs, env, st, fuel)
         case Ended(h, st1) => Leave(w, Ended(h, st1), pending, fuel)
         case Ok(xs, st1) =>
           match EvalTargets(w, ts, xs, env, st1, fuel)
           case Ended(h, st2) => Leave(w, Ended(h, st2), pending, fuel)
           case Ok(_, st2) => EvalStmts(w, rest, env, st2, pending, fuel))
      case Do(e) =>
        (match Eval(w, Taken, e, env, st, fuel)
         case Ended(h, st1) => Leave(w, Ended(h, st1), pending, fuel)
         case Ok(_, st1) => EvalStmts(w, rest, env, st1, pending, fuel))
  }

  function EvalAssign(w: World, t: Expr, v: Value, env: Env, st: State, fuel: nat): Result<Value>
    decreases fuel, 2, t, 4
  {
    match EvalPlace(w, Replaced, t, env, st, fuel)
    case Ended(h, st1) => Ended(h, st1)
    case Ok(p, st1) => Ok(Atom(0), Store(p, t.Name?, v, st1))
  }

  function EvalTargets(w: World, ts: Exprs, vs: seq<Value>, env: Env, st: State, fuel: nat): Result<Value>
    decreases fuel, 2, ts, 0
  {
    match ts
    case ENil => Ok(Atom(0), st)
    case ECons(h, t) =>
      match EvalAssign(w, h, if vs == [] then Atom(0) else vs[0], env, st, fuel)
      case Ended(h, st1) => Ended(h, st1)
      case Ok(_, st1) => EvalTargets(w, t, if vs == [] then [] else vs[1..], env, st1, fuel)
  }

  /** The end of a block: on an error the error cleanups, and then the others. */
  function Leave(w: World, r: Result<Value>, pending: seq<Cleanup>, fuel: nat): Result<Value>
    decreases fuel, 1
  {
    if r.Ended? && r.how.CutShort? then r
    else
      var failed := r.Ended? && (r.how.Raised? || (r.how.Returned? && Roll(w, r.st).n == 0));
      match RunCleanups(w, if failed then pending else [], true, Tick(r.st), fuel)
      case Ended(h, st1) => Ended(h, st1)
      case Ok(_, st1) =>
        match RunCleanups(w, pending, false, st1, fuel)
        case Ended(h, st2) => Ended(h, st2)
        case Ok(_, st2) => if r.Ok? then Ok(r.value, st2) else Ended(r.how, st2)
  }

  /** The cleanups of one kind, last registered first. */
  function RunCleanups(w: World, pending: seq<Cleanup>, onError: bool, st: State, fuel: nat): Result<Value>
    decreases fuel, 0, |pending|
  {
    if pending == [] then Ok(Atom(0), st)
    else
      var front, last := pending[..|pending| - 1], pending[|pending| - 1];
      if last.onError != onError then RunCleanups(w, front, onError, st, fuel)
      else if fuel == 0 then Ended(CutShort, st)
      else
        match EvalBlock(w, last.body, last.env, st, fuel - 1)
        case Ended(h, st1) => Ended(h, st1)
        case Ok(_, st1) => RunCleanups(w, front, onError, st1, fuel)
  }
}
