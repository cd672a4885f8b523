/** The order of strings as map keys, and lists sorted by it. */
module KeyOrder {

  predicate Less(a: string, b: string) {
    b != [] && (a == [] || a[0] < b[0] || (a[0] == b[0] && Less(a[1..], b[1..])))
  }

  /** `a` agrees with `b` up to position `i`, and there ends or has the smaller character. */
  predicate DiffersAt(a: string, b: string, i: nat) {
    i < |b| && i <= |a| && a[..i] == b[..i] && (i == |a| || a[i] < b[i])
  }

  /** At the first difference the smaller character decides, and a proper prefix is smaller. */
  lemma {:induction false} LessIs(a: string, b: string)
    ensures Less(a, b) <==> exists i :: DiffersAt(a, b, i)
    decreases |a|
  {
    forall i | 0 < i && DiffersAt(a, b, i)
      ensures a[0] == b[0] && DiffersAt(a[1..], b[1..], i - 1)
    {
      assert a[..i][0] == b[..i][0];
      assert a[1..][..i - 1] == a[..i][1..] && b[1..][..i - 1] == b[..i][1..];
    }
    if a != [] && b != [] && a[0] == b[0] {
      LessIs(a[1..], b[1..]);
      if i: nat :| DiffersAt(a[1..], b[1..], i) {
        assert a[..i + 1] == [a[0]] + a[1..][..i] && b[..i + 1] == [b[0]] + b[1..][..i];
        assert DiffersAt(a, b, i + 1);
      }
      assert !DiffersAt(a, b, 0);
    } else {
      assert DiffersAt(a, b, 0) == Less(a, b);
    }
  }

  lemma {:induction false} LessTrans(a: string, b: string, c: string)
    requires Less(a, b) && Less(b, c)
    ensures Less(a, c)
    decreases |a|
  {
    if a != [] && a[0] == b[0] && b[0] == c[0] {
      LessTrans(a[1..], b[1..], c[1..]);
    }
  }

  lemma {:induction false} LessTotal(a: string, b: string)
    ensures Less(a, b) || a == b || Less(b, a)
    decreases |a|
  {
    if a != [] && b != [] && a[0] == b[0] {
      LessTotal(a[1..], b[1..]);
      assert a == [a[0]] + a[1..] && b == [b[0]] + b[1..];
    }
  }

  lemma {:induction false} LessIrreflexive(a: string)
    ensures !Less(a, a)
    decreases |a|
  {
    if a != [] {
      LessIrreflexive(a[1..]);
    }
  }

  /** In strictly ascending order; so no key comes twice. */
  predicate Ascending(keys: seq<string>) {
    forall i, j :: 0 <= i < j < |keys| ==> Less(keys[i], keys[j])
  }

  /** The least of some keys. */
  method Least(keys: set<string>) returns (m: string)
    requires keys != {}
    ensures m in keys && forall k :: k in keys && k != m ==> Less(m, k)
  {
    m :| m in keys;
    var rest := keys - {m};
    while rest != {}
      invariant m in keys && rest <= keys && forall k :: k in keys - rest && k != m ==> Less(m, k)
      decreases |rest|
    {
      var k :| k in rest;
      LessTotal(k, m);
      if Less(k, m) {
        forall x | x in keys - rest && x != m ensures Less(k, x) { LessTrans(k, m, x); }
        m := k;
      }
      rest := rest - {k};
    }
  }

  /** The keys of a sorted set, in its order of iteration. */
  method Sorted(keys: set<string>) returns (s: seq<string>)
    ensures Ascending(s) && forall k :: k in s <==> k in keys
  {
    s := [];
    var rest := keys;
    while rest != {}
      invariant rest <= keys && Ascending(s) && forall k :: k in s <==> k in keys - rest
      invariant forall k, x :: k in s && x in rest ==> Less(k, x)
      decreases |rest|
    {
      var m := Least(rest);
      s, rest := s + [m], rest - {m};
    }
  }
}
