/** The cost aggregator of `src/cost_summary.rs`: rows per function, running
    totals, and what they have to do with each other. */
module CostSummary {
  import opened Options
  import opened KeyOrder
  import opened Sums

  // ── Input ────────────────────────────────────────────────────────

  datatype Expr =
    | Ident(name: string)
    | Path(segments: seq<string>)
    | Index(container: Expr, index: Expr)
    | Call(callee: Expr, span: nat, args: Exprs)
    | Match(scrutinee: Expr, arms: Arms)     // the walk skips the guards,
    | Lock(mutex: Expr, body: Expr)          // the operand,
    | Interpolated(holes: Exprs)             // and the holes
    | Other(parts: Exprs)                    // any other form; the walk visits all its parts

  datatype Exprs = ENil | ECons(head: Expr, tail: Exprs)

  datatype Arms = NoArm | Arm(guard: Expr, body: Expr, others: Arms)

  datatype Method = Method(name: string, body: Expr)

  datatype Item =
    | Function(name: string, body: Expr)
    | Impl(typeName: string, methods: seq<Method>)
    | TraitDef(name: string, methods: seq<Method>)   // those with a default body
    | OtherItem

  /** The ownership pass's tables: RC bindings per function with the span of the
      other use, those promoted to Arc, and the functions that allow the fallback. */
  datatype Ownership = Ownership(rc: map<string, map<string, nat>>, arc: map<string, set<string>>, allowed: set<string>)

  // ── Output ───────────────────────────────────────────────────────

  datatype Derivation = RcOp(binding: string, isArc: bool, span: nat) | Wrap(resource: string, span: nat)

  datatype Row = Row(owner: string, rcOps: nat, wraps: nat, flagged: bool, derivation: seq<Derivation>)

  datatype Summary = Summary(count: nat, rc: nat, arc: nat, suppressed: nat, wraps: nat, rows: seq<Row>)

  // ── Provider call sites ──────────────────────────────────────────

  /** `match_with_provider_callee`. */
  function Resource(callee: Expr): Option<string> {
    if callee.Index? && (callee.container == Ident("with_provider") || callee.container == Path(["with_provider"])) then
      match callee.index
      case Ident(x) => Some(x)
      case Path(s) => if s == [] then None else Some(s[|s| - 1])
      case _ => None
    else None
  }

  /** The provider sites that the walk finds. */
  function Sites(e: Expr): seq<Derivation> {
    match e
    case Ident(_) => []
    case Path(_) => []
    case Index(o, i) => Sites(o) + Sites(i)
    case Call(f, span, args) =>
      (match Resource(f) case None => [] case Some(r) => [Wrap(r, span)]) + Sites(f) + SitesAll(args)
    case Match(s, arms) => Sites(s) + SitesArms(arms)
    case Lock(_, b) => Sites(b)
    case Interpolated(_) => []
    case Other(parts) => SitesAll(parts)
  }

  function SitesArms(arms: Arms): seq<Derivation> {
    match arms
    case NoArm => []
    case Arm(_, b, others) => Sites(b) + SitesArms(others)
  }

  function SitesAll(es: Exprs): seq<Derivation> {
    match es
    case ENil => []
    case ECons(h, t) => Sites(h) + SitesAll(t)
  }

  /** All provider sites. */
  function Complete(e: Expr): set<Derivation> {
    match e
    case Ident(_) => {}
    case Path(_) => {}
    case Index(o, i) => Complete(o) + Complete(i)
    case Call(f, span, args) =>
      (match Resource(f) case None => {} case Some(r) => {Wrap(r, span)}) + Complete(f) + CompleteAll(args)
    case Match(s, arms) => Complete(s) + CompleteArms(arms)
    case Lock(x, b) => Complete(x) + Complete(b)
    case Interpolated(holes) => CompleteAll(holes)
    case Other(parts) => CompleteAll(parts)
  }

  function CompleteAll(es: Exprs): set<Derivation> {
    match es
    case ENil => {}
    case ECons(h, t) => Complete(h) + CompleteAll(t)
  }

  function CompleteArms(arms: Arms): set<Derivation> {
    match arms
    case NoArm => {}
    case Arm(g, b, others) => Complete(g) + Complete(b) + CompleteArms(others)
  }

  /** The provider sites in guards, operands of `lock` and holes of texts. */
  function Missed(e: Expr): set<Derivation> {
    match e
    case Ident(_) => {}
    case Path(_) => {}
    case Index(o, i) => Missed(o) + Missed(i)
    case Call(f, _, args) => Missed(f) + MissedAll(args)
    case Match(s, arms) => Missed(s) + MissedArms(arms)
    case Lock(x, b) => Complete(x) + Missed(b)
    case Interpolated(holes) => CompleteAll(holes)
    case Other(parts) => MissedAll(parts)
  }

  function MissedAll(es: Exprs): set<Derivation> {
    match es
    case ENil => {}
    case ECons(h, t) => Missed(h) + MissedAll(t)
  }

  function MissedArms(arms: Arms): set<Derivation> {
    match arms
    case NoArm => {}
    case Arm(g, b, others) => Complete(g) + Missed(b) + MissedArms(others)
  }

  function SetOf(s: seq<Derivation>): set<Derivation> {
    set d | d in s
  }

  /** Every provider site is found, or is in a part that the walk skips. */
  lemma {:induction false} FoundOrMissed(e: Expr)
    ensures Complete(e) == SetOf(Sites(e)) + Missed(e)
  {
    match e
    case Ident(_) =>
    case Path(_) =>
    case Index(o, i) =>
      FoundOrMissed(o);
      FoundOrMissed(i);
    case Call(f, _, args) =>
      FoundOrMissed(f);
      FoundOrMissedAll(args);
    case Match(s, arms) =>
      FoundOrMissed(s);
      FoundOrMissedArms(arms);
    case Lock(x, b) =>
      FoundOrMissed(x);
      FoundOrMissed(b);
    case Interpolated(_) =>
    case Other(parts) => FoundOrMissedAll(parts);
  }

  lemma {:induction false} FoundOrMissedAll(es: Exprs)
    ensures CompleteAll(es) == SetOf(SitesAll(es)) + MissedAll(es)
  {
    if es.ECons? {
      FoundOrMissed(es.head);
      FoundOrMissedAll(es.tail);
    }
  }

  lemma {:induction false} FoundOrMissedArms(arms: Arms)
    ensures CompleteArms(arms) == SetOf(SitesArms(arms)) + MissedArms(arms)
  {
    if arms.Arm? {
      FoundOrMissed(arms.body);
      FoundOrMissedArms(arms.others);
    }
  }

  method Walk(e: Expr, found: seq<Derivation>) returns (out: seq<Derivation>)
    ensures out == found + Sites(e)
    decreases e
  {
    out := found;
    match e {
      case Ident(_) =>
      case Path(_) =>
      case Index(o, i) =>
        out := Walk(o, out);
        out := Walk(i, out);
        AppendAssoc(found, Sites(o), Sites(i));
      case Call(f, span, args) =>
        var r := Resource(f);
        if r.Some? {
          out := out + [Wrap(r.value, span)];
        }
        ghost var own := match r case None => [] case Some(x) => [Wrap(x, span)];
        assert found + [] == found;
        out := Walk(f, out);
        out := WalkAll(args, out);
        AppendAssoc(found, own, Sites(f));
        AppendAssoc(found, own + Sites(f), SitesAll(args));
      case Match(s, arms) =>
        out := Walk(s, out);
        out := WalkArms(arms, out);
        AppendAssoc(found, Sites(s), SitesArms(arms));
      case Lock(_, b) => out := Walk(b, out);
      case Interpolated(_) =>
      case Other(parts) => out := WalkAll(parts, out);
    }
  }

  method WalkArms(arms: Arms, found: seq<Derivation>) returns (out: seq<Derivation>)
    ensures out == found + SitesArms(arms)
    decreases arms
  {
    out := found;
    var rest := arms;
    while rest.Arm?
      invariant out + SitesArms(rest) == found + SitesArms(arms)
      invariant rest == arms || rest < arms
      decreases rest
    {
      AppendAssoc(out, Sites(rest.body), SitesArms(rest.others));
      out := Walk(rest.body, out);
      rest := rest.others;
    }
  }

  lemma AppendAssoc<T>(a: seq<T>, b: seq<T>, c: seq<T>)
    ensures (a + b) + c == a + (b + c)
  {
  }

  method WalkAll(es: Exprs, found: seq<Derivation>) returns (out: seq<Derivation>)
    ensures out == found + SitesAll(es)
    decreases es
  {
    out := found;
    var rest := es;
    while rest.ECons?
      invariant out + SitesAll(rest) == found + SitesAll(es)
      invariant rest == es || rest < es
      decreases rest
    {
      AppendAssoc(out, Sites(rest.head), SitesAll(rest.tail));
      out := Walk(rest.head, out);
      rest := rest.tail;
    }
  }

  // ── Sums over rows ───────────────────────────────────────────────

  datatype Column = RcOps | Wraps | SuppressedOps

  function Count(r: Row, c: Column): nat {
    match c
    case RcOps => r.rcOps
    case Wraps => r.wraps
    case SuppressedOps => if r.flagged then r.rcOps else 0
  }

  ghost function ColumnOf(rows: map<string, Row>, c: Column): map<string, nat> {
    map k | k in rows :: Count(rows[k], c)
  }

  ghost function Total(rows: map<string, Row>, c: Column): nat {
    Sum(ColumnOf(rows, c))
  }

  lemma TotalPut(rows: map<string, Row>, k: string, r: Row, c: Column)
    ensures Total(rows[k := r], c) == Total(rows, c) - (if k in rows then Count(rows[k], c) else 0) + Count(r, c)
  {
    assert ColumnOf(rows[k := r], c) == ColumnOf(rows, c)[k := Count(r, c)];
    SumPut(ColumnOf(rows, c), k, Count(r, c));
  }

  function SumRows(rows: seq<Row>, c: Column): nat {
    if rows == [] then 0 else Count(rows[0], c) + SumRows(rows[1..], c)
  }

  function Listed(rows: map<string, Row>, keys: seq<string>): (s: seq<Row>)
    requires forall k :: k in keys ==> k in rows
    ensures |s| == |keys| && forall i :: 0 <= i < |keys| ==> s[i] == rows[keys[i]]
  {
    seq(|keys|, i requires 0 <= i < |keys| => rows[keys[i]])
  }

  lemma {:induction false} SumListed(rows: map<string, Row>, keys: seq<string>, c: Column)
    requires Ascending(keys) && forall k :: k in keys <==> k in rows
    ensures SumRows(Listed(rows, keys), c) == Total(rows, c)
    decreases |keys|
  {
    hide Ascending, Count, Sum;
    if keys == [] {
      NoTotal(rows, c);
    } else {
      var k := keys[0];
      var tail := keys[1..];
      NotInTail(keys);
      var rest := rows - {k};
      assert forall x :: x in keys <==> x == k || x in tail;
      SumListed(rest, tail, c);
      assert Listed(rows, keys)[1..] == Listed(rest, tail);
      TotalRemove(rows, k, c);
    }
  }

  lemma NoTotal(rows: map<string, Row>, c: Column)
    requires forall k :: k !in rows
    ensures Total(rows, c) == 0
  {
    assert ColumnOf(rows, c) == map[];
  }

  lemma TotalRemove(rows: map<string, Row>, k: string, c: Column)
    requires k in rows
    ensures Total(rows, c) == Count(rows[k], c) + Total(rows - {k}, c)
  {
    assert ColumnOf(rows, c) - {k} == ColumnOf(rows - {k}, c);
    SumRemove(ColumnOf(rows, c), k);
  }

  lemma NotInTail(keys: seq<string>)
    requires Ascending(keys) && keys != []
    ensures keys[0] !in keys[1..] && Ascending(keys[1..])
  {
    LessIrreflexive(keys[0]);
  }

  // ── Building ─────────────────────────────────────────────────────

  function EmptyRow(key: string): Row {
    Row(key, 0, 0, false, [])
  }

  function RowOf(rows: map<string, Row>, key: string): Row {
    if key in rows then rows[key] else EmptyRow(key)
  }

  datatype Body = Body(key: string, code: Expr)

  function MethodBodies(owner: string, methods: seq<Method>): seq<Body> {
    if methods == [] then []
    else
      [Body(if owner == "" then methods[0].name else owner + "." + methods[0].name, methods[0].body)] +
      MethodBodies(owner, methods[1..])
  }

  /** The bodies that are walked: not the default bodies of traits. */
  function Bodies(items: seq<Item>): seq<Body> {
    if items == [] then []
    else
      (match items[0]
       case Function(x, b) => [Body(x, b)]
       case Impl(t, ms) => MethodBodies(t, ms)
       case _ => []) + Bodies(items[1..])
  }

  lemma {:induction false} BodiesCat(a: seq<Item>, b: seq<Item>)
    ensures Bodies(a + b) == Bodies(a) + Bodies(b)
    decreases |a|
  {
    if a == [] {
      assert a + b == b;
    } else {
      assert (a + b)[1..] == a[1..] + b;
      BodiesCat(a[1..], b);
    }
  }

  /** A trait changes nothing, whatever its default bodies contain. */
  lemma TraitsSkipped(front: seq<Item>, name: string, methods: seq<Method>, back: seq<Item>)
    ensures Bodies(front + [TraitDef(name, methods)] + back) == Bodies(front + back)
  {
    NoBodies(name, methods);
    hide Bodies;
    BodiesCat(front + [TraitDef(name, methods)], back);
    BodiesCat(front, [TraitDef(name, methods)]);
    BodiesCat(front, back);
    assert Bodies(front) + [] == Bodies(front);
  }

  lemma NoBodies(name: string, methods: seq<Method>)
    ensures Bodies([TraitDef(name, methods)]) == []
  {
    assert [TraitDef(name, methods)][1..] == [];
  }

  /** All provider sites of the bodies with a key, in order. */
  function SitesOf(bodies: seq<Body>, key: string): seq<Derivation> {
    if bodies == [] then []
    else
      SitesOf(bodies[..|bodies| - 1], key) +
      (if bodies[|bodies| - 1].key == key then Sites(bodies[|bodies| - 1].code) else [])
  }

  ghost function AllSites(bodies: seq<Body>): seq<Derivation> {
    if bodies == [] then []
    else AllSites(bodies[..|bodies| - 1]) + Sites(bodies[|bodies| - 1].code)
  }

  predicate IsArc(own: Ownership, key: string, binding: string) {
    key in own.arc && binding in own.arc[key]
  }

  /** One entry for each of some bindings of a function, and no other entry. */
  ghost predicate RcList(list: seq<Derivation>, own: Ownership, key: string, bindings: set<string>)
    requires key in own.rc && bindings <= own.rc[key].Keys
  {
    && (forall b, a, n :: multiset(list)[RcOp(b, a, n)] ==
          if b in bindings && a == IsArc(own, key, b) && n == own.rc[key][b] then 1 else 0)
    && forall d :: d in list ==> d.RcOp?
  }

  lemma RcListPut(list: seq<Derivation>, own: Ownership, key: string, bindings: set<string>, b: string)
    requires key in own.rc && bindings <= own.rc[key].Keys && RcList(list, own, key, bindings)
    requires b in own.rc[key] && b !in bindings
    ensures RcList(list + [RcOp(b, IsArc(own, key, b), own.rc[key][b])], own, key, bindings + {b})
  {
    var d := RcOp(b, IsArc(own, key, b), own.rc[key][b]);
    assert multiset(list + [d]) == multiset(list) + multiset{d};
  }

  /** What the row of a function says, given whether its RC bindings are done and its
      provider sites: an entry for each binding, then the sites. */
  ghost predicate RowFits(r: Row, key: string, own: Ownership, done: bool, sites: seq<Derivation>) {
    && r.owner == key
    && r.rcOps == (if done && key in own.rc then |own.rc[key]| else 0)
    && r.wraps == |sites|
    && r.flagged == (done && key in own.allowed)
    && |r.derivation| == r.rcOps + r.wraps
    && r.derivation[r.rcOps..] == sites
    && (done && key in own.rc ==> RcList(r.derivation[..r.rcOps], own, key, own.rc[key].Keys))
  }

  /** The rows, given the functions and bodies done so far. */
  ghost predicate RowsAre(rows: map<string, Row>, own: Ownership, done: set<string>, bodies: seq<Body>) {
    && (forall k :: k in rows <==> k in done || SitesOf(bodies, k) != [])
    && (forall k :: k in rows ==> RowFits(rows[k], k, own, k in done, SitesOf(bodies, k)))
  }

  /** How many of the bindings of the functions done are, or are not, promoted. */
  ghost function ArcCounts(own: Ownership, done: set<string>, arc: bool): map<string, nat> {
    map k | k in done :: if k in own.rc then |ArcSet(own, k, own.rc[k].Keys, arc)| else 0
  }

  /** The bindings that are, or are not, promoted. */
  ghost function ArcSet(own: Ownership, key: string, bindings: set<string>, arc: bool): set<string> {
    set b | b in bindings && IsArc(own, key, b) == arc
  }

  lemma ArcSetPut(own: Ownership, key: string, bindings: set<string>, b: string)
    requires b !in bindings
    ensures forall a ::
        |ArcSet(own, key, bindings + {b}, a)| ==
        |ArcSet(own, key, bindings, a)| + (if IsArc(own, key, b) == a then 1 else 0)
  {
    var a := IsArc(own, key, b);
    assert ArcSet(own, key, bindings + {b}, a) == ArcSet(own, key, bindings, a) + {b};
    assert ArcSet(own, key, bindings + {b}, !a) == ArcSet(own, key, bindings, !a);
  }

  method RcRow(own: Ownership, key: string, row0: Row) returns (row: Row, rc: nat, arc: nat)
    requires key in own.rc
    ensures row.owner == row0.owner && row.wraps == row0.wraps && row.rcOps == row0.rcOps + |own.rc[key]|
    ensures row.flagged == (row0.flagged || key in own.allowed)
    ensures |row.derivation| == |row0.derivation| + |own.rc[key]| && row0.derivation <= row.derivation
    ensures RcList(row.derivation[|row0.derivation|..], own, key, own.rc[key].Keys)
    ensures rc == |ArcSet(own, key, own.rc[key].Keys, false)| && arc == |ArcSet(own, key, own.rc[key].Keys, true)|
    ensures rc + arc == |own.rc[key]|
  {
    hide ArcSet, RcList;
    row := if key in own.allowed then row0.(flagged := true) else row0;
    rc, arc := 0, 0;
    var bindings := own.rc[key];
    var rest := bindings.Keys;
    NoArcs(own, key);
    ghost var list: seq<Derivation> := [];
    assert RcList([], own, key, bindings.Keys - rest) by { NoList(own, key); }
    while rest != {}
      invariant rest <= bindings.Keys
      invariant row.owner == row0.owner && row.wraps == row0.wraps &&
          row.flagged == (row0.flagged || key in own.allowed)
      invariant row.rcOps == row0.rcOps + rc + arc && |list| == rc + arc
      invariant row.derivation == row0.derivation + list && RcList(list, own, key, bindings.Keys - rest)
      invariant rc + arc + |rest| == |bindings|
      invariant rc == |ArcSet(own, key, bindings.Keys - rest, false)| &&
          arc == |ArcSet(own, key, bindings.Keys - rest, true)|
      decreases |rest|
    {
      var b :| b in rest;
      var isArc := IsArc(own, key, b);
      ArcSetPut(own, key, bindings.Keys - rest, b);
      RcListPut(list, own, key, bindings.Keys - rest, b);
      list := list + [RcOp(b, isArc, bindings[b])];
      if isArc {
        arc := arc + 1;
      } else {
        rc := rc + 1;
      }
      row := row.(rcOps := row.rcOps + 1, derivation := row.derivation + [RcOp(b, isArc, bindings[b])]);
      assert bindings.Keys - rest + {b} == bindings.Keys - (rest - {b});
      rest := rest - {b};
    }
    assert bindings.Keys - {} == bindings.Keys;
    assert row.derivation[|row0.derivation|..] == list;
  }

  lemma NoList(own: Ownership, key: string)
    requires key in own.rc
    ensures RcList([], own, key, own.rc[key].Keys - own.rc[key].Keys)
  {
  }

  lemma NoArcs(own: Ownership, key: string)
    ensures own.rc.Keys - own.rc.Keys == {} && forall a, s: set<string> :: |ArcSet(own, key, s - s, a)| == 0
  {
    forall a, s: set<string>
      ensures |ArcSet(own, key, s - s, a)| == 0
    {
      assert ArcSet(own, key, s - s, a) == {};
    }
  }

  /** The running totals after some functions. */
  ghost predicate Tallies(rows: map<string, Row>, own: Ownership, done: set<string>, rc: nat, arc: nat,
          suppressed: nat) {
    && rc + arc == Total(rows, RcOps) && suppressed == Total(rows, SuppressedOps) && Total(rows, Wraps) == 0
    && arc == Sum(ArcCounts(own, done, true)) && rc == Sum(ArcCounts(own, done, false))
  }

  lemma TallyPut(rows: map<string, Row>, own: Ownership, done: set<string>, rc: nat, arc: nat, suppressed: nat,
          key: string, row: Row, r: nat, a: nat)
    requires Tallies(rows, own, done, rc, arc, suppressed) && key in own.rc && key !in done && key !in rows
    requires r == |ArcSet(own, key, own.rc[key].Keys, false)| && a == |ArcSet(own, key, own.rc[key].Keys, true)|
    requires row.wraps == 0 && row.rcOps == r + a
    ensures Tallies(rows[key := row], own, done + {key}, rc + r, arc + a,
        suppressed + (if row.flagged then r + a else 0))
  {
    hide Total, ArcCounts, ArcSet, Sum;
    ArcCountsPut(own, done, key);
    TotalPut(rows, key, row, RcOps);
    TotalPut(rows, key, row, SuppressedOps);
    TotalPut(rows, key, row, Wraps);
  }

  method RcRows(own: Ownership) returns (rows: map<string, Row>, rc: nat, arc: nat, suppressed: nat)
    ensures RowsAre(rows, own, own.rc.Keys, []) && Tallies(rows, own, own.rc.Keys, rc, arc, suppressed)
  {
    hide RowsAre, Tallies, ArcSet;
    rows, rc, arc, suppressed := map[], 0, 0, 0;
    NoRows(own);
    assert own.rc.Keys - own.rc.Keys == {};
    var rest := own.rc.Keys;
    while rest != {}
      invariant rest <= own.rc.Keys && RowsAre(rows, own, own.rc.Keys - rest, []) &&
          Tallies(rows, own, own.rc.Keys - rest, rc, arc, suppressed)
      decreases |rest|
    {
      var key :| key in rest;
      ghost var done := own.rc.Keys - rest;
      NotYet(rows, own, done, key);
      var row, r, a := RcRow(own, key, RowOf(rows, key));
      RcPut(rows, own, done, key, row);
      TallyPut(rows, own, done, rc, arc, suppressed, key, row, r, a);
      rows := rows[key := row];
      rc, arc := rc + r, arc + a;
      if key in own.allowed {
        suppressed := suppressed + (r + a);
      }
      assert own.rc.Keys - (rest - {key}) == done + {key};
      rest := rest - {key};
    }
    assert own.rc.Keys - {} == own.rc.Keys;
  }

  lemma NotYet(rows: map<string, Row>, own: Ownership, done: set<string>, key: string)
    requires RowsAre(rows, own, done, []) && key !in done
    ensures key !in rows
  {
    assert SitesOf([], key) == [];
  }

  lemma RcPut(rows: map<string, Row>, own: Ownership, done: set<string>, key: string, row: Row)
    requires RowsAre(rows, own, done, []) && key in own.rc && key !in done
    requires row.owner == key && row.wraps == 0 && row.rcOps == |own.rc[key]| && row.flagged == (key in own.allowed) &&
        |row.derivation| == row.rcOps && RcList(row.derivation, own, key, own.rc[key].Keys)
    ensures RowsAre(rows[key := row], own, done + {key}, [])
  {
    hide RcList;
    assert forall k :: SitesOf([], k) == [];
    assert row.derivation[row.rcOps..] == [] && row.derivation[..row.rcOps] == row.derivation;
  }

  lemma WrapPut(rows: map<string, Row>, own: Ownership, done: set<string>, bodies: seq<Body>, i: nat,
          sites: seq<Derivation>)
    requires i < |bodies| && RowsAre(rows, own, done, bodies[..i]) && sites == Sites(bodies[i].code)
    ensures var key := bodies[i].key; var row0 := RowOf(rows, key);
      var row := row0.(wraps := row0.wraps + |sites|, derivation := row0.derivation + sites);
      RowsAre(if sites == [] then rows else rows[key := row], own, done, bodies[..i + 1])
  {
    hide SitesOf, Sites, RcList;
    var row0 := RowOf(rows, bodies[i].key);
    var row := row0.(wraps := row0.wraps + |sites|, derivation := row0.derivation + sites);
    assert row.derivation[..row.rcOps] == row0.derivation[..row.rcOps];
    assert row.derivation[row.rcOps..] == row0.derivation[row.rcOps..] + sites;
    forall k
      ensures SitesOf(bodies[..i + 1], k) == if bodies[i].key == k then
          SitesOf(bodies[..i], k) + sites else SitesOf(bodies[..i], k)
    {
      SitesSnoc(bodies, i, k);
    }
  }

  lemma NoRows(own: Ownership)
    ensures RowsAre(map[], own, {}, []) && Tallies(map[], own, {}, 0, 0, 0)
  {
    forall c ensures Total(map[], c) == 0 { assert ColumnOf(map[], c) == map[]; }
    forall a ensures Sum(ArcCounts(own, {}, a)) == 0 { assert ArcCounts(own, {}, a) == map[]; }
  }

  lemma ArcCountsPut(own: Ownership, done: set<string>, key: string)
    requires key in own.rc && key !in done
    ensures forall a ::
        Sum(ArcCounts(own, done + {key}, a)) == Sum(ArcCounts(own, done, a)) + |ArcSet(own, key, own.rc[key].Keys, a)|
  {
    forall a
      ensures Sum(ArcCounts(own, done + {key}, a)) ==
          Sum(ArcCounts(own, done, a)) + |ArcSet(own, key, own.rc[key].Keys, a)|
    {
      var n := |ArcSet(own, key, own.rc[key].Keys, a)|;
      assert ArcCounts(own, done + {key}, a) == ArcCounts(own, done, a)[key := n];
      SumPut(ArcCounts(own, done, a), key, n);
    }
  }

  method WrapRows(own: Ownership, bodies: seq<Body>, rows0: map<string, Row>)
    returns (rows: map<string, Row>, wraps: nat)
    requires RowsAre(rows0, own, own.rc.Keys, []) && Total(rows0, Wraps) == 0
    ensures RowsAre(rows, own, own.rc.Keys, bodies)
    ensures wraps == Total(rows, Wraps) && Total(rows, RcOps) == Total(rows0, RcOps) &&
        Total(rows, SuppressedOps) == Total(rows0, SuppressedOps)
    ensures wraps == |AllSites(bodies)|
  {
    hide RowsAre, Total, Sites;
    rows, wraps := rows0, 0;
    for i := 0 to |bodies|
      invariant RowsAre(rows, own, own.rc.Keys, bodies[..i])
      invariant wraps == Total(rows, Wraps) && Total(rows, RcOps) == Total(rows0, RcOps) &&
          Total(rows, SuppressedOps) == Total(rows0, SuppressedOps)
      invariant wraps == |AllSites(bodies[..i])|
    {
      assert bodies[..i + 1][..i] == bodies[..i];
      var key := bodies[i].key;
      var sites := Walk(bodies[i].code, []);
      WrapPut(rows, own, own.rc.Keys, bodies, i, sites);
      if sites != [] {
        var row := WrapRow(RowOf(rows, key), sites);
        TotalPut(rows, key, row, RcOps);
        TotalPut(rows, key, row, SuppressedOps);
        TotalPut(rows, key, row, Wraps);
        rows := rows[key := row];
        wraps := wraps + |sites|;
      }
    }
    assert bodies[..|bodies|] == bodies;
  }

  lemma SitesSnoc(bodies: seq<Body>, i: nat, k: string)
    requires i < |bodies|
    ensures SitesOf(bodies[..i + 1], k) == if bodies[i].key == k then
        SitesOf(bodies[..i], k) + Sites(bodies[i].code) else SitesOf(bodies[..i], k)
  {
    assert bodies[..i + 1][..i] == bodies[..i];
  }

  method WrapRow(row0: Row, sites: seq<Derivation>) returns (row: Row)
    ensures row == row0.(wraps := row0.wraps + |sites|, derivation := row0.derivation + sites)
  {
    row := row0;
    for i := 0 to |sites|
      invariant row == row0.(wraps := row0.wraps + i, derivation := row0.derivation + sites[..i])
    {
      row := row.(wraps := row.wraps + 1, derivation := row.derivation + [sites[i]]);
    }
    assert sites[..|sites|] == sites;
  }

  // ── What a summary says about its program ────────────────────────

  /** A call of `with_provider[resource]`. */
  ghost predicate IsProviderCall(x: Expr, resource: string, span: nat) {
    && x.Call? && x.span == span && x.callee.Index?
    && x.callee.container in {Ident("with_provider"), Path(["with_provider"])}
    && (x.callee.index == Ident(resource) ||
        exists front :: x.callee.index == Path(front + [resource]))
  }

  /** Any call of a provider, or those of one resource at one place. */
  datatype Wanted = Any | Only(resource: string, span: nat)

  ghost predicate IsWanted(x: Expr, w: Wanted) {
    match w
    case Any => exists r, span :: IsProviderCall(x, r, span)
    case Only(r, span) => IsProviderCall(x, r, span)
  }

  /** How many wanted calls an expression has outside guards, operands of `lock` and holes of texts. */
  ghost function Calls(e: Expr, w: Wanted): nat {
    (if IsWanted(e, w) then 1 else 0) +
    match e
    case Ident(_) => 0
    case Path(_) => 0
    case Index(o, i) => Calls(o, w) + Calls(i, w)
    case Call(f, _, args) => Calls(f, w) + CallsAll(args, w)
    case Match(s, arms) => Calls(s, w) + CallsArms(arms, w)
    case Lock(_, b) => Calls(b, w)
    case Interpolated(_) => 0
    case Other(parts) => CallsAll(parts, w)
  }

  ghost function CallsAll(es: Exprs, w: Wanted): nat {
    match es
    case ENil => 0
    case ECons(h, t) => Calls(h, w) + CallsAll(t, w)
  }

  ghost function CallsArms(arms: Arms, w: Wanted): nat {
    match arms
    case NoArm => 0
    case Arm(_, b, others) => Calls(b, w) + CallsArms(others, w)
  }

  /** The key is that of a method of an impl: `T.m`, or the bare name when the type has none. */
  predicate IsMethodKey(key: string, typeName: string, name: string) {
    if typeName == "" then key == name else key == typeName + "." + name
  }

  /** How many wanted calls the functions and methods have, all or those with one key. */
  ghost function CallsOf(items: seq<Item>, key: Option<string>, w: Wanted): nat {
    if items == [] then 0
    else
      (match items[0]
       case Function(x, b) => if key in {None, Some(x)} then Calls(b, w) else 0
       case Impl(t, ms) => MethodCalls(t, ms, key, w)
       case TraitDef(_, _) => 0
       case OtherItem => 0) + CallsOf(items[1..], key, w)
  }

  ghost function MethodCalls(t: string, ms: seq<Method>, key: Option<string>, w: Wanted): nat {
    if ms == [] then 0
    else
      (if key.None? || IsMethodKey(key.value, t, ms[0].name) then Calls(ms[0].body, w) else 0) +
      MethodCalls(t, ms[1..], key, w)
  }

  /** A row, from the tables and the items themselves: as many entries for a resource at a
      place as there are such calls, one entry for each binding, and no other. */
  ghost predicate RowSays(items: seq<Item>, own: Ownership, r: Row) {
    var k := r.owner;
    && (forall q, span :: multiset(r.derivation)[Wrap(q, span)] == CallsOf(items, Some(k), Only(q, span)))
    && (forall b, a, n :: multiset(r.derivation)[RcOp(b, a, n)] ==
          if k in own.rc && b in own.rc[k] && n == own.rc[k][b] && a == (k in own.arc && b in own.arc[k]) then 1 else 0)
    && r.rcOps == (if k in own.rc then |own.rc[k]| else 0)
    && r.wraps == CallsOf(items, Some(k), Any)
    && r.flagged == (k in own.rc && k in own.allowed)
  }

  ghost predicate SummarySays(items: seq<Item>, own: Ownership, s: Summary) {
    && s.wraps == CallsOf(items, None, Any)
    && (forall k :: (exists i :: 0 <= i < |s.rows| && s.rows[i].owner == k) <==>
          k in own.rc || CallsOf(items, Some(k), Any) > 0)
    && forall i :: 0 <= i < |s.rows| ==> RowSays(items, own, s.rows[i])
  }

  /** How often a list has what is wanted. */
  ghost function Tally(sites: seq<Derivation>, w: Wanted): nat {
    match w case Any => |sites| case Only(r, span) => multiset(sites)[Wrap(r, span)]
  }

  lemma TallyCat(a: seq<Derivation>, b: seq<Derivation>, w: Wanted)
    ensures Tally(a + b, w) == Tally(a, w) + Tally(b, w)
  {
    assert multiset(a + b) == multiset(a) + multiset(b);
  }

  lemma OwnSites(e: Expr, w: Wanted)
    requires e.Call?
    ensures Tally(match Resource(e.callee) case None => [] case Some(r) => [Wrap(r, e.span)], w) ==
      if IsWanted(e, w) then 1 else 0
  {
    var own := match Resource(e.callee) case None => [] case Some(r) => [Wrap(r, e.span)];
    forall q, span
      ensures IsProviderCall(e, q, span) <==> Resource(e.callee) == Some(q) && span == e.span
    {
      ResourceIs(e, q, span);
    }
    if r :| own == [Wrap(r, e.span)] {
      assert IsProviderCall(e, r, e.span);
      assert multiset(own) == multiset{Wrap(r, e.span)};
    }
  }

  lemma ResourceIs(e: Expr, q: string, span: nat)
    requires e.Call?
    ensures IsProviderCall(e, q, span) <==> Resource(e.callee) == Some(q) && span == e.span
  {
    if e.callee.Index? && e.callee.index.Path? {
      var s := e.callee.index.segments;
      if s != [] {
        assert s == s[..|s| - 1] + [s[|s| - 1]];
      }
    }
  }

  /** The walk finds the calls of providers, each once. */
  lemma {:induction false} CountSites(e: Expr, w: Wanted)
    ensures Tally(Sites(e), w) == Calls(e, w)
  {
    hide Tally, Resource, IsProviderCall;
    NoTally(w);
    match e
    case Ident(_) =>
    case Path(_) =>
    case Index(o, i) =>
      CountSites(o, w);
      CountSites(i, w);
      TallyCat(Sites(o), Sites(i), w);
    case Call(f, span, args) =>
      CountSites(f, w);
      CountSitesAll(args, w);
      OwnSites(e, w);
      var own := match Resource(f) case None => [] case Some(r) => [Wrap(r, span)];
      TallyCat(own, Sites(f), w);
      TallyCat(own + Sites(f), SitesAll(args), w);
    case Match(s, arms) =>
      CountSites(s, w);
      CountSitesArms(arms, w);
      TallyCat(Sites(s), SitesArms(arms), w);
    case Lock(_, b) => CountSites(b, w);
    case Interpolated(_) =>
    case Other(parts) => CountSitesAll(parts, w);
  }

  lemma NoTally(w: Wanted)
    ensures Tally([], w) == 0 && forall e :: IsWanted(e, w) ==> e.Call?
  {
  }

  lemma {:induction false} CountSitesAll(es: Exprs, w: Wanted)
    ensures Tally(SitesAll(es), w) == CallsAll(es, w)
  {
    if es.ECons? {
      CountSites(es.head, w);
      CountSitesAll(es.tail, w);
      TallyCat(Sites(es.head), SitesAll(es.tail), w);
    }
  }

  lemma {:induction false} CountSitesArms(arms: Arms, w: Wanted)
    ensures Tally(SitesArms(arms), w) == CallsArms(arms, w)
  {
    if arms.Arm? {
      CountSites(arms.body, w);
      CountSitesArms(arms.others, w);
      TallyCat(Sites(arms.body), SitesArms(arms.others), w);
    }
  }

  /** The provider sites of the bodies with a key, or of all. */
  ghost function Chosen(bodies: seq<Body>, key: Option<string>): seq<Derivation> {
    match key case None => AllSites(bodies) case Some(k) => SitesOf(bodies, k)
  }

  lemma {:induction false} ChosenCons(b: Body, bodies: seq<Body>, key: Option<string>)
    ensures Chosen([b] + bodies, key) ==
      (if key in {None, Some(b.key)} then Sites(b.code) else []) + Chosen(bodies, key)
    decreases |bodies|
  {
    hide Sites;
    if bodies == [] {
      assert [b] + bodies == [b] && [b][..0] == [];
    } else {
      var n := |bodies| - 1;
      assert ([b] + bodies)[..n + 1] == [b] + bodies[..n];
      ChosenCons(b, bodies[..n], key);
    }
  }

  lemma {:induction false} CountMethods(t: string, ms: seq<Method>, others: seq<Body>, key: Option<string>, w: Wanted)
    ensures Tally(Chosen(MethodBodies(t, ms) + others, key), w) ==
      MethodCalls(t, ms, key, w) + Tally(Chosen(others, key), w)
    decreases |ms|
  {
    hide Tally, Chosen, Calls;
    if ms == [] {
      assert MethodBodies(t, ms) + others == others;
    } else {
      var b := Body(if t == "" then ms[0].name else t + "." + ms[0].name, ms[0].body);
      var rest := MethodBodies(t, ms[1..]) + others;
      assert MethodBodies(t, ms) + others == [b] + rest;
      ChosenCons(b, rest, key);
      CountSites(b.code, w);
      NoTally(w);
      TallyCat(if key in {None, Some(b.key)} then Sites(b.code) else [], Chosen(rest, key), w);
      CountMethods(t, ms[1..], others, key, w);
    }
  }

  lemma {:induction false} CountBodies(items: seq<Item>, key: Option<string>, w: Wanted)
    ensures Tally(Chosen(Bodies(items), key), w) == CallsOf(items, key, w)
  {
    hide Tally, Chosen, Calls, MethodBodies, MethodCalls;
    if items == [] {
      NoChosen(key, w);
    } else {
      var rest := Bodies(items[1..]);
      CountBodies(items[1..], key, w);
      match items[0]
      case Function(x, c) =>
        var b := Body(x, c);
        ChosenCons(b, rest, key);
        CountSites(c, w);
        NoTally(w);
        TallyCat(if key in {None, Some(x)} then Sites(c) else [], Chosen(rest, key), w);
      case Impl(t, ms) => CountMethods(t, ms, rest, key, w);
      case _ => assert Bodies(items) == rest;
    }
  }

  lemma NoChosen(key: Option<string>, w: Wanted)
    ensures Tally(Chosen([], key), w) == 0
  {
  }

  lemma FitsSays(items: seq<Item>, own: Ownership, r: Row)
    requires RowFits(r, r.owner, own, r.owner in own.rc, SitesOf(Bodies(items), r.owner))
    ensures RowSays(items, own, r)
  {
    hide Bodies, Calls, CallsOf;
    var k := r.owner;
    var sites := SitesOf(Bodies(items), k);
    var list := r.derivation[..r.rcOps];
    assert r.derivation == list + sites;
    assert multiset(r.derivation) == multiset(list) + multiset(sites);
    CountBodies(items, Some(k), Any);
    forall q, span
      ensures multiset(sites)[Wrap(q, span)] == CallsOf(items, Some(k), Only(q, span))
      ensures multiset(list)[Wrap(q, span)] == 0
    {
      CountBodies(items, Some(k), Only(q, span));
      assert Wrap(q, span) !in list;
    }
    forall b, a, n
      ensures RcOp(b, a, n) !in sites
    {
      NoRcSites(Bodies(items), k, RcOp(b, a, n));
    }
  }

  lemma {:induction false} NoRcSites(bodies: seq<Body>, key: string, d: Derivation)
    requires d.RcOp?
    ensures d !in SitesOf(bodies, key)
  {
    if bodies != [] {
      NoRcSites(bodies[..|bodies| - 1], key, d);
      OnlyWraps(bodies[|bodies| - 1].code, d);
    }
  }

  lemma {:induction false} OnlyWraps(e: Expr, d: Derivation)
    requires d.RcOp?
    ensures d !in Sites(e)
    decreases e, 0
  {
    match e
    case Ident(_) =>
    case Path(_) =>
    case Index(o, i) =>
      OnlyWraps(o, d);
      OnlyWraps(i, d);
    case Call(f, _, args) =>
      OnlyWraps(f, d);
      OnlyWrapsAll(args, d);
    case Match(s, arms) =>
      OnlyWraps(s, d);
      OnlyWrapsArms(arms, d);
    case Lock(_, b) => OnlyWraps(b, d);
    case Interpolated(_) =>
    case Other(parts) => OnlyWrapsAll(parts, d);
  }

  lemma {:induction false} OnlyWrapsAll(es: Exprs, d: Derivation)
    requires d.RcOp?
    ensures d !in SitesAll(es)
    decreases es, 0
  {
    if es.ECons? {
      OnlyWraps(es.head, d);
      OnlyWrapsAll(es.tail, d);
    }
  }

  lemma {:induction false} OnlyWrapsArms(arms: Arms, d: Derivation)
    requires d.RcOp?
    ensures d !in SitesArms(arms)
    decreases arms, 0
  {
    if arms.Arm? {
      OnlyWraps(arms.body, d);
      OnlyWrapsArms(arms.others, d);
    }
  }

  /** A part of an expression outside guards, operands of `lock` and holes of texts. */
  predicate Part(x: Expr, e: Expr) {
    x == e ||
    match e
    case Ident(_) => false
    case Path(_) => false
    case Index(o, i) => Part(x, o) || Part(x, i)
    case Call(f, _, args) => Part(x, f) || PartOf(x, args)
    case Match(s, arms) => Part(x, s) || PartOfArms(x, arms)
    case Lock(_, b) => Part(x, b)
    case Interpolated(_) => false
    case Other(parts) => PartOf(x, parts)
  }

  predicate PartOf(x: Expr, es: Exprs) {
    match es case ENil => false case ECons(h, t) => Part(x, h) || PartOf(x, t)
  }

  predicate PartOfArms(x: Expr, arms: Arms) {
    match arms case NoArm => false case Arm(_, b, others) => Part(x, b) || PartOfArms(x, others)
  }

  lemma {:induction false} PartCounts(x: Expr, e: Expr, w: Wanted)
    requires Part(x, e) && IsWanted(x, w)
    ensures Calls(e, w) > 0
    decreases e, 0
  {
    hide IsWanted;
    if x != e {
      match e
      case Index(o, i) => if Part(x, o) { PartCounts(x, o, w); } else { PartCounts(x, i, w); }
      case Call(f, _, args) => if Part(x, f) { PartCounts(x, f, w); } else { PartCountsAll(x, args, w); }
      case Match(s, arms) => if Part(x, s) { PartCounts(x, s, w); } else { PartCountsArms(x, arms, w); }
      case Lock(_, b) => PartCounts(x, b, w);
      case Other(parts) => PartCountsAll(x, parts, w);
    }
  }

  lemma {:induction false} PartCountsAll(x: Expr, es: Exprs, w: Wanted)
    requires PartOf(x, es) && IsWanted(x, w)
    ensures CallsAll(es, w) > 0
    decreases es, 0
  {
    if Part(x, es.head) { PartCounts(x, es.head, w); } else { PartCountsAll(x, es.tail, w); }
  }

  lemma {:induction false} PartCountsArms(x: Expr, arms: Arms, w: Wanted)
    requires PartOfArms(x, arms) && IsWanted(x, w)
    ensures CallsArms(arms, w) > 0
    decreases arms, 0
  {
    if Part(x, arms.body) { PartCounts(x, arms.body, w); } else { PartCountsArms(x, arms.others, w); }
  }

  /** The body is that of a function, or of method `j` of an impl, with the key. */
  predicate Defines(item: Item, j: nat, key: string, code: Expr) {
    match item
    case Function(x, b) => j == 0 && key == x && code == b
    case Impl(t, ms) => j < |ms| && IsMethodKey(key, t, ms[j].name) && code == ms[j].body
    case TraitDef(_, _) => false
    case OtherItem => false
  }

  lemma {:induction false} BodyCounts(items: seq<Item>, i: nat, j: nat, key: string, code: Expr, w: Wanted)
    requires i < |items| && Defines(items[i], j, key, code) && Calls(code, w) > 0
    ensures CallsOf(items, Some(key), w) > 0
    decreases i
  {
    hide Calls, MethodCalls;
    if i > 0 {
      BodyCounts(items[1..], i - 1, j, key, code, w);
    } else if items[0].Impl? {
      MethodCounts(items[0].typeName, items[0].methods, j, key, w);
    }
  }

  lemma {:induction false} MethodCounts(t: string, ms: seq<Method>, j: nat, key: string, w: Wanted)
    requires j < |ms| && IsMethodKey(key, t, ms[j].name) && Calls(ms[j].body, w) > 0
    ensures MethodCalls(t, ms, Some(key), w) > 0
    decreases j
  {
    hide Calls;
    if j > 0 {
      MethodCounts(t, ms[1..], j - 1, key, w);
    }
  }

  /** A call of a provider in the body of a function or method, outside the parts that are
      skipped, has an entry in the row of its function or method. */
  lemma CallIsListed(items: seq<Item>, own: Ownership, s: Summary, i: nat, j: nat, key: string, code: Expr, x: Expr,
          resource: string, span: nat)
    requires SummarySays(items, own, s)
    requires i < |items| && Defines(items[i], j, key, code) && Part(x, code) && IsProviderCall(x, resource, span)
    ensures exists r :: r in s.rows && r.owner == key && Wrap(resource, span) in r.derivation
  {
    hide Part, Calls, CallsOf, Defines, IsProviderCall;
    assert IsWanted(x, Any) && IsWanted(x, Only(resource, span));
    PartCounts(x, code, Any);
    PartCounts(x, code, Only(resource, span));
    BodyCounts(items, i, j, key, code, Any);
    BodyCounts(items, i, j, key, code, Only(resource, span));
    var n :| 0 <= n < |s.rows| && s.rows[n].owner == key;
    assert RowSays(items, own, s.rows[n]);
    assert s.rows[n] in s.rows;
  }

  /** `build`: the totals are the sums over the rows, and the rows say what the
      tables and the bodies say about each function. */
  method Build(items: seq<Item>, own: Ownership) returns (s: Summary)
    ensures s.count == s.rc + s.arc == SumRows(s.rows, RcOps)
    ensures s.wraps == SumRows(s.rows, Wraps) && s.suppressed == SumRows(s.rows, SuppressedOps)
    ensures s.arc == Sum(ArcCounts(own, own.rc.Keys, true)) && s.rc == Sum(ArcCounts(own, own.rc.Keys, false))
    ensures forall i, j :: 0 <= i < j < |s.rows| ==> Less(s.rows[i].owner, s.rows[j].owner)
    ensures SummarySays(items, own, s)
    ensures forall i :: 0 <= i < |s.rows| ==>
        RowFits(s.rows[i], s.rows[i].owner, own, s.rows[i].owner in own.rc, SitesOf(Bodies(items), s.rows[i].owner))
  {
    hide RowsAre, Total, RowFits, RowSays;
    var rows, rc, arc, suppressed := RcRows(own);
    var wraps: nat;
    rows, wraps := WrapRows(own, Bodies(items), rows);
    var keys := Sorted(rows.Keys);
    var list := Listed(rows, keys);
    SumListed(rows, keys, RcOps);
    SumListed(rows, keys, Wraps);
    SumListed(rows, keys, SuppressedOps);
    ListedSays(rows, keys, own, Bodies(items));
    s := Summary(rc + arc, rc, arc, suppressed, wraps, list);
    SaysAll(items, own, s);
  }

  lemma SaysAll(items: seq<Item>, own: Ownership, s: Summary)
    requires s.wraps == |AllSites(Bodies(items))|
    requires forall k :: (exists i :: 0 <= i < |s.rows| && s.rows[i].owner == k) <==>
        k in own.rc || SitesOf(Bodies(items), k) != []
    requires forall i :: 0 <= i < |s.rows| ==>
        RowFits(s.rows[i], s.rows[i].owner, own, s.rows[i].owner in own.rc, SitesOf(Bodies(items), s.rows[i].owner))
    ensures SummarySays(items, own, s)
  {
    hide Bodies, CallsOf, RowFits, RowSays, SitesOf, AllSites;
    CountBodies(items, None, Any);
    forall k: string
      ensures |SitesOf(Bodies(items), k)| == CallsOf(items, Some(k), Any)
    {
      CountBodies(items, Some(k), Any);
    }
    forall i | 0 <= i < |s.rows|
      ensures RowSays(items, own, s.rows[i])
    {
      FitsSays(items, own, s.rows[i]);
    }
  }

  lemma ListedSays(rows: map<string, Row>, keys: seq<string>, own: Ownership, bodies: seq<Body>)
    requires RowsAre(rows, own, own.rc.Keys, bodies) && Ascending(keys) && forall k :: k in keys <==> k in rows
    ensures var s := Listed(rows, keys);
      && (forall i, j :: 0 <= i < j < |s| ==> Less(s[i].owner, s[j].owner))
      && (forall k :: (exists i :: 0 <= i < |s| && s[i].owner == k) <==> k in own.rc || SitesOf(bodies, k) != [])
      && (forall i :: 0 <= i < |s| ==>
          s[i].owner == keys[i] && RowFits(s[i], keys[i], own, keys[i] in own.rc, SitesOf(bodies, keys[i])))
  {
    var s := Listed(rows, keys);
    forall i | 0 <= i < |s|
      ensures s[i].owner == keys[i] && RowFits(s[i], keys[i], own, keys[i] in own.rc, SitesOf(bodies, keys[i]))
    {
      assert keys[i] in rows;
    }
    forall k
      ensures (exists i :: 0 <= i < |s| && s[i].owner == k) <==> k in rows
    {
      if k in rows {
        assert k in keys;
        var i :| 0 <= i < |keys| && keys[i] == k;
        assert s[i].owner == k;
      }
    }
  }
}
