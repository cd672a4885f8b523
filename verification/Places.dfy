/** Place paths of `src/cfg.rs`: the projection steps that lead from a root
    binding to the part of it that one use touches. */
module Places {

  /** One projection step. Two different fields, or two different tuple
      positions, are different storage; two index steps may be the same. */
  datatype PlaceSeg = Field(name: string) | TupleIndex(pos: nat) | Index

  type PlacePath = seq<PlaceSeg>

  /** `place_paths_disjoint`: at the first step in which they differ, both are
      fields or tuple positions. */
  predicate Disjoint(a: PlacePath, b: PlacePath) {
    a != [] && b != [] &&
    if a[0] == b[0] then Disjoint(a[1..], b[1..]) else !a[0].Index? && !b[0].Index?
  }

  /** `place_rebind_covers`: the reassigned place is a prefix of the consumed one. */
  predicate RebindCovers(reassigned: PlacePath, consumed: PlacePath) {
    |reassigned| <= |consumed| && forall i :: 0 <= i < |reassigned| ==> reassigned[i] == consumed[i]
  }
}
