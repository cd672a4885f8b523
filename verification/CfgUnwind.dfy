/** The order in which exits run cleanup: which registered bodies, each how
    often, and one after the other in which order. */
module CfgUnwind {
  import opened Options
  import opened CfgSyntax
  import opened CfgLowering

  /** A registered body: its scope, counted from the outermost, and its place in the scope. */
  datatype Slot = Slot(frame: nat, index: nat)

  ghost predicate IsSlot(frames: seq<seq<Item>>, s: Slot) {
    s.frame < |frames| && s.index < |frames[s.frame]|
  }

  function ItemAt(frames: seq<seq<Item>>, s: Slot): Item
    requires IsSlot(frames, s)
  {
    frames[s.frame][s.index]
  }

  /** An exit unwinds the scopes from `depth` on; only error exits run errdefers. */
  ghost predicate Runs(frames: seq<seq<Item>>, depth: nat, errorPath: bool, s: Slot) {
    IsSlot(frames, s) && depth <= s.frame && (errorPath || !ItemAt(frames, s).err)
  }

  /** Inner scopes first; in a scope errdefers first; of one kind the last registered first. */
  ghost predicate Before(frames: seq<seq<Item>>, a: Slot, b: Slot)
  {
    && IsSlot(frames, a) && IsSlot(frames, b)
    && (|| a.frame > b.frame
        || (a.frame == b.frame && ItemAt(frames, a).err && !ItemAt(frames, b).err)
        || (a.frame == b.frame && ItemAt(frames, a).err == ItemAt(frames, b).err && a.index > b.index))
  }

  ghost predicate Ordered(frames: seq<seq<Item>>, order: seq<Slot>) {
    forall i, j :: 0 <= i < j < |order| ==> Before(frames, order[i], order[j])
  }

  /** All the slots that run, in order; the order is strict, so each comes once. */
  ghost predicate InOrder(frames: seq<seq<Item>>, depth: nat, errorPath: bool, order: seq<Slot>) {
    && (forall s :: s in order <==> Runs(frames, depth, errorPath, s))
    && Ordered(frames, order)
  }

  ghost function BodiesAt(frames: seq<seq<Item>>, order: seq<Slot>): seq<Block>
    requires forall s :: s in order ==> IsSlot(frames, s)
  {
    seq(|order|, i requires 0 <= i < |order| => ItemAt(frames, order[i]).body)
  }

  lemma HasMember(b: seq<Slot>)
    requires b != []
    ensures exists s :: s in b
  {
    assert b[0] in b;
  }

  /** There is only one such order. */
  lemma {:induction false} OrderUnique(frames: seq<seq<Item>>, a: seq<Slot>, b: seq<Slot>)
    requires forall s :: s in a ==> IsSlot(frames, s)
    requires forall s :: s in a <==> s in b
    requires Ordered(frames, a)
    requires Ordered(frames, b)
    ensures a == b
    decreases |a|
  {
    if a == [] {
      if b != [] {
        HasMember(b);
      }
    } else {
      assert a[0] in b;
      assert b[0] in a;
      var i :| 0 <= i < |b| && b[i] == a[0];
      var j :| 0 <= j < |a| && a[j] == b[0];
      assert a[0] == b[0];
      forall s
        ensures s in a[1..] <==> s in b[1..]
      {
        if s in a[1..] {
          var k :| 0 <= k < |a[1..]| && a[1..][k] == s;
          assert Before(frames, a[0], a[k + 1]);
          assert s in b && s != b[0];
        }
        if s in b[1..] {
          var k :| 0 <= k < |b[1..]| && b[1..][k] == s;
          assert Before(frames, b[0], b[k + 1]);
          assert s in a && s != a[0];
        }
      }
      OrderUnique(frames, a[1..], b[1..]);
    }
  }

  // ── One kind, one scope, all scopes ──────────────────────────────

  /** The places of one kind in a scope, last registered first. */
  function Places(items: seq<Item>, err: bool): (s: seq<nat>)
    ensures forall k :: 0 <= k < |s| ==> s[k] < |items|
  {
    if items == [] then []
    else (if items[|items| - 1].err == err then [|items| - 1] else []) + Places(items[..|items| - 1], err)
  }

  lemma {:induction false} PlacesAre(items: seq<Item>, err: bool)
    ensures forall i :: i in Places(items, err) <==> 0 <= i < |items| && items[i].err == err
    ensures forall i, j :: 0 <= i < j < |Places(items, err)| ==> Places(items, err)[i] > Places(items, err)[j]
  {
    if items != [] {
      PlacesAre(items[..|items| - 1], err);
    }
  }

  ghost predicate PickedAt(items: seq<Item>, bodies: seq<Block>, places: seq<nat>) {
    |bodies| == |places| && forall k :: 0 <= k < |places| ==> places[k] < |items| && bodies[k] == items[places[k]].body
  }

  lemma {:induction false} PlacesPick(items: seq<Item>, err: bool)
    ensures PickedAt(items, Pick(items, err), Places(items, err))
  {
    if items != [] {
      var front := items[..|items| - 1];
      PlacesPick(front, err);
      PickedMore(front, items[|items| - 1], Pick(front, err), Places(front, err));
      assert front + [items[|items| - 1]] == items;
      assert [] + Pick(front, err) == Pick(front, err) && [] + Places(front, err) == Places(front, err);
    }
  }

  lemma PickedMore(items: seq<Item>, it: Item, bodies: seq<Block>, places: seq<nat>)
    requires PickedAt(items, bodies, places)
    ensures PickedAt(items + [it], bodies, places) && PickedAt(items + [it], [it.body] + bodies, [|items|] + places)
  {
  }

  function Slots(frame: nat, places: seq<nat>): (s: seq<Slot>)
    ensures |s| == |places| && forall k :: 0 <= k < |s| ==> s[k] == Slot(frame, places[k])
  {
    seq(|places|, i requires 0 <= i < |places| => Slot(frame, places[i]))
  }

  lemma SlotsIn(frame: nat, places: seq<nat>)
    ensures forall x :: x in Slots(frame, places) <==> x.frame == frame && x.index in places
  {
    forall x
      ensures x in Slots(frame, places) <==> x.frame == frame && x.index in places
    {
      if x.frame == frame && x.index in places {
        var k :| 0 <= k < |places| && places[k] == x.index;
        assert Slots(frame, places)[k] == x;
      }
    }
  }

  /** The slots of the scope `frame` in the order in which they run. */
  function ScopeOrder(frames: seq<seq<Item>>, frame: nat, errorPath: bool): seq<Slot>
    requires frame < |frames|
  {
    (if errorPath then Slots(frame, Places(frames[frame], true)) else []) + Slots(frame, Places(frames[frame], false))
  }

  lemma ScopeOrderOk(frames: seq<seq<Item>>, frame: nat, errorPath: bool)
    requires frame < |frames|
    ensures var order := ScopeOrder(frames, frame, errorPath);
      && (forall s :: s in order <==> s.frame == frame && Runs(frames, frame, errorPath, s))
      && Ordered(frames, order)
      && FrameBodies(frames[frame], errorPath) == BodiesAt(frames, order)
  {
    hide Runs, Ordered, FrameBodies, BodiesAt;
    ScopeMembers(frames, frame, errorPath);
    ScopeOrdered(frames, frame, errorPath);
    ScopeBodies(frames, frame, errorPath);
  }

  lemma ScopeBodies(frames: seq<seq<Item>>, frame: nat, errorPath: bool)
    requires frame < |frames| && forall s :: s in ScopeOrder(frames, frame, errorPath) ==>
        s.frame == frame && Runs(frames, frame, errorPath, s)
    ensures FrameBodies(frames[frame], errorPath) == BodiesAt(frames, ScopeOrder(frames, frame, errorPath))
  {
    hide Places, Pick;
    PlacesPick(frames[frame], true);
    PlacesPick(frames[frame], false);
  }

  lemma ScopeMembers(frames: seq<seq<Item>>, frame: nat, errorPath: bool)
    requires frame < |frames|
    ensures forall s :: s in ScopeOrder(frames, frame, errorPath) <==>
        s.frame == frame && Runs(frames, frame, errorPath, s)
  {
    hide Places;
    PlacesAre(frames[frame], true);
    PlacesAre(frames[frame], false);
    SlotsIn(frame, Places(frames[frame], true));
    SlotsIn(frame, Places(frames[frame], false));
  }

  lemma ScopeOrdered(frames: seq<seq<Item>>, frame: nat, errorPath: bool)
    requires frame < |frames|
    ensures Ordered(frames, ScopeOrder(frames, frame, errorPath))
  {
    hide Places;
    PlacesAre(frames[frame], true);
    PlacesAre(frames[frame], false);
    var a := Slots(frame, Places(frames[frame], true));
    var b := Slots(frame, Places(frames[frame], false));
    KindOrdered(frames, frame, true, Places(frames[frame], true));
    KindOrdered(frames, frame, false, Places(frames[frame], false));
    forall i, j | 0 <= i < |a| && 0 <= j < |b|
      ensures Before(frames, a[i], b[j])
    {
      assert Places(frames[frame], true)[i] in Places(frames[frame], true);
      assert Places(frames[frame], false)[j] in Places(frames[frame], false);
    }
  }

  lemma KindOrdered(frames: seq<seq<Item>>, frame: nat, err: bool, places: seq<nat>)
    requires frame < |frames|
    requires forall i :: i in places ==> i < |frames[frame]| && frames[frame][i].err == err
    requires forall i, j :: 0 <= i < j < |places| ==> places[i] > places[j]
    ensures Ordered(frames, Slots(frame, places))
  {
    var a := Slots(frame, places);
    forall i, j | 0 <= i < j < |a|
      ensures Before(frames, a[i], a[j])
    {
      assert places[i] in places && places[j] in places;
    }
  }

  /** Every exit runs exactly the bodies registered by then in the scopes it
      leaves, errdefers only on an error path, each once and in this order. */
  lemma {:induction false} UnwindOrder(frames: seq<seq<Item>>, depth: nat, errorPath: bool) returns (order: seq<Slot>)
    ensures InOrder(frames, depth, errorPath, order) && Bodies(frames, depth, errorPath) == BodiesAt(frames, order)
    decreases |frames|
  {
    if |frames| <= depth {
      order := [];
    } else {
      var front := frames[..|frames| - 1];
      var rest := UnwindOrder(front, depth, errorPath);
      var first := ScopeOrder(frames, |frames| - 1, errorPath);
      ScopeOrderOk(frames, |frames| - 1, errorPath);
      FrontOrder(frames, depth, errorPath, rest);
      order := first + rest;
      JoinOrders(frames, depth, errorPath, first, rest);
      assert BodiesAt(frames, order) == BodiesAt(frames, first) + BodiesAt(frames, rest);
    }
  }

  lemma FrontOrder(frames: seq<seq<Item>>, depth: nat, errorPath: bool, rest: seq<Slot>)
    requires |frames| > depth && InOrder(frames[..|frames| - 1], depth, errorPath, rest)
    ensures forall s :: s in rest <==> s.frame < |frames| - 1 && Runs(frames, depth, errorPath, s)
    ensures Ordered(frames, rest)
    ensures BodiesAt(frames[..|frames| - 1], rest) == BodiesAt(frames, rest)
  {
    var front := frames[..|frames| - 1];
    forall s
      ensures s in rest <==> s.frame < |frames| - 1 && Runs(frames, depth, errorPath, s)
    {
      assert s in rest <==> Runs(front, depth, errorPath, s);
    }
    forall i, j | 0 <= i < j < |rest|
      ensures Before(frames, rest[i], rest[j])
    {
      assert Before(front, rest[i], rest[j]);
    }
  }

  lemma JoinOrders(frames: seq<seq<Item>>, depth: nat, errorPath: bool, first: seq<Slot>, rest: seq<Slot>)
    requires |frames| > depth
    requires forall s :: s in first <==> s.frame == |frames| - 1 && Runs(frames, |frames| - 1, errorPath, s)
    requires Ordered(frames, first)
    requires forall s :: s in rest <==> s.frame < |frames| - 1 && Runs(frames, depth, errorPath, s)
    requires Ordered(frames, rest)
    ensures InOrder(frames, depth, errorPath, first + rest)
  {
    var order := first + rest;
    forall i, j | 0 <= i < j < |order|
      ensures Before(frames, order[i], order[j])
    {
      if i < |first| && j >= |first| {
        assert order[i] in first && order[j] in rest;
      }
    }
  }

  // ── Which scopes an exit leaves ──────────────────────────────────

  /** A `break` or `continue` goes to the innermost loop that has its label, or
      to the innermost loop if it has none. */
  lemma {:induction false} ResolvesInnermost(loops: seq<LoopFrame>, lbl: Label)
    ensures match Resolve(loops, lbl)
      case None => forall i :: 0 <= i < |loops| ==> lbl != None && loops[i].lbl != lbl
      case Some(i) =>
        (lbl == None || loops[i].lbl == lbl) &&
        (forall j :: i < j < |loops| ==> lbl != None && loops[j].lbl != lbl)
    decreases |loops|
  {
    if loops != [] {
      ResolvesInnermost(loops[..|loops| - 1], lbl);
    }
  }

  /** `return` and a failing `?` unwind every scope, with errdefers; `break` and
      `continue` unwind the scopes inside their loop, without. */
  lemma ExitUnwinds(c: Ctx, o: Outcome) returns (order: seq<Slot>)
    requires o != Normal && TargetOf(c, o).Some?
    ensures var t := TargetOf(c, o).value;
      && (o == Ret ==> InOrder(c.frames, 0, true, order) && t.dst == c.exit)
      && (o != Ret ==>
            exists i :: 0 <= i < |c.loops| && (o.lbl == None || c.loops[i].lbl == o.lbl)
              && (forall j :: i < j < |c.loops| ==> o.lbl != None && c.loops[j].lbl != o.lbl)
              && InOrder(c.frames, c.loops[i].depth, false, order)
              && t.dst == (if o.Brk? then c.loops[i].brk else c.loops[i].cont))
      && (forall s :: s in order ==> IsSlot(c.frames, s))
      && t.bodies == BodiesAt(c.frames, order)
  {
    if o == Ret {
      order := UnwindOrder(c.frames, 0, true);
    } else {
      ResolvesInnermost(c.loops, o.lbl);
      var i := Resolve(c.loops, o.lbl).value;
      order := UnwindOrder(c.frames, c.loops[i].depth, false);
    }
  }
}
