/** Version vectors: a map from server name to that server's logical clock,
    where a server the vector has never heard of reads as clock 0.
    `Merge` is the per-key maximum and `Dominates` the (asymmetric) partial
    order test that only looks at the argument's keys. */
module VersionVectors {

  type ServerId = string

  type VersionVector = map<ServerId, nat>

  /** The clock recorded for `s`, or 0 when `s` was never set. */
  function Get(v: VersionVector, s: ServerId): (c: nat)
    ensures s !in v ==> c == 0
    ensures s in v ==> c == v[s]
  {
    if s in v then v[s] else 0
  }

  function Max(x: nat, y: nat): (m: nat)
    ensures x <= m && y <= m
    ensures m == x || m == y
  {
    if x < y then y else x
  }

  /** A freshly constructed vector. */
  function Empty(): (r: VersionVector)
    ensures forall s :: Get(r, s) == 0
    ensures forall s :: s !in r
  {
    map[]
  }

  /** Overwrites the clock of one server, leaving every other server alone. */
  function Set(v: VersionVector, s: ServerId, clock: nat): (r: VersionVector)
    ensures Get(r, s) == clock
    ensures forall t :: t != s ==> Get(r, t) == Get(v, t)
    ensures r.Keys == v.Keys + {s}
  {
    v[s := clock]
  }

  /** `a` has seen at least as much as `b` from every server `b` mentions.
      Keys present only in `a` play no part: dominance is the pointwise
      order on the total "absent reads as 0" view. */
  predicate Dominates(a: VersionVector, b: VersionVector): (d: bool)
    ensures d <==> forall s :: Get(b, s) <= Get(a, s)
  {
    forall s :: s in b ==> Get(b, s) <= Get(a, s)
  }

  /** The per-key maximum of two vectors: the receiver after `a.merge(b)`. */
  function Merge(a: VersionVector, b: VersionVector): (r: VersionVector)
    ensures r.Keys == a.Keys + b.Keys
    ensures Dominates(r, a) && Dominates(r, b)
    ensures forall s :: s !in b ==> Get(r, s) == Get(a, s)
    ensures forall s :: Get(r, s) == Get(a, s) || Get(r, s) == Get(b, s)
  {
    map s | s in a.Keys + b.Keys :: Max(Get(a, s), Get(b, s))
  }

  /** The merge loop as written: walk the other vector's keys, raising each
      one to the larger of the two clocks. */
  method MergeByKeys(a: VersionVector, b: VersionVector) returns (r: VersionVector)
    ensures r == Merge(a, b)
  {
    r := a;
    var remaining := b.Keys;
    while remaining != {}
      invariant remaining <= b.Keys
      invariant r.Keys == a.Keys + (b.Keys - remaining)
      invariant forall s :: s in remaining ==> Get(r, s) == Get(a, s)
      invariant forall s :: s in r && s !in remaining ==> r[s] == Max(Get(a, s), Get(b, s))
      decreases remaining
    {
      var s :| s in remaining;
      r := Set(r, s, Max(Get(r, s), Get(b, s)));
      remaining := remaining - {s};
    }
    assert forall s :: s in r ==> r[s] == Merge(a, b)[s];
  }

  /** The dominance loop as written: fail on the first key of `b` whose
      clock in `a` is smaller. */
  method DominatesByKeys(a: VersionVector, b: VersionVector) returns (d: bool)
    ensures d <==> Dominates(a, b)
  {
    var remaining := b.Keys;
    while remaining != {}
      invariant remaining <= b.Keys
      invariant forall s :: s in b.Keys - remaining ==> Get(b, s) <= Get(a, s)
      decreases remaining
    {
      var s :| s in remaining;
      if Get(a, s) < Get(b, s) {
        return false;
      }
      remaining := remaining - {s};
    }
    return true;
  }

  lemma DominatesReflexive(a: VersionVector)
    ensures Dominates(a, a)
  {
  }

  lemma DominatesTransitive(a: VersionVector, b: VersionVector, c: VersionVector)
    requires Dominates(a, b) && Dominates(b, c)
    ensures Dominates(a, c)
  {
  }

  /** Merging a vector into itself changes nothing. */
  lemma MergeIdempotent(a: VersionVector)
    ensures Merge(a, a) == a
  {
  }

  /** The merge is the least vector dominating both of its arguments. */
  lemma MergeLeastUpperBound(a: VersionVector, b: VersionVector, c: VersionVector)
    requires Dominates(c, a) && Dominates(c, b)
    ensures Dominates(c, Merge(a, b))
  {
  }

  /** Which side of a merge a vector stands on does not matter. */
  lemma MergeCommutative(a: VersionVector, b: VersionVector)
    ensures Merge(a, b) == Merge(b, a)
  {
  }

  /** Merging in a vector one already dominates changes no clock. */
  lemma MergeDominated(a: VersionVector, b: VersionVector)
    requires Dominates(a, b)
    ensures forall s :: Get(Merge(a, b), s) == Get(a, s)
  {
  }
}
