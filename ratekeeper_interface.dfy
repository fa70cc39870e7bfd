/**
 * Identity of a `RatekeeperInterface`: the locality it was constructed with
 * and its `UID`. The request streams it also carries (wait-failure, rate-info,
 * halt, cost-report and blob-granule endpoints) are transport plumbing and are
 * not part of this model; interface equality never looks at them.
 */
module RatekeeperIdentity {
  import opened Uid

  datatype Option<T> = None | Some(value: T)

  /** Placement metadata: locality keys mapped to optional values, all as bytes. */
  datatype LocalityData = LocalityData(entries: map<seq<bv8>, Option<seq<bv8>>>)

  datatype RatekeeperInterface = RatekeeperInterface(locality: LocalityData, myId: UID)

  /** The explicit constructor `RatekeeperInterface(l, id)`. */
  function Create(l: LocalityData, id: UID): (r: RatekeeperInterface)
    ensures r.myId == id && r.locality == l
  {
    RatekeeperInterface(l, id)
  }

  /** `id()`: the identifier the interface was constructed with. */
  function Id(r: RatekeeperInterface): (u: UID)
    ensures Create(r.locality, u) == r
  {
    r.myId
  }

  /**
   * `operator==`: two interfaces are equal when their identifiers are; that is,
   * when they agree once their localities are disregarded.
   */
  predicate Equals(a: RatekeeperInterface, b: RatekeeperInterface): (e: bool)
    ensures e <==> a == b.(locality := a.locality)
    ensures a == b ==> e
  {
    Id(a) == Id(b)
  }

  /** `operator!=`: the negation of `==`, so unequal interfaces are distinct values. */
  predicate NotEquals(a: RatekeeperInterface, b: RatekeeperInterface): (n: bool)
    ensures n <==> a != b.(locality := a.locality)
    ensures n ==> a != b
  {
    !Equals(a, b)
  }

  /** Interfaces built from the same identifier are equal whatever their localities. */
  lemma EqualsIgnoresLocality(l1: LocalityData, l2: LocalityData, id: UID)
    ensures Equals(Create(l1, id), Create(l2, id))
  {
  }

  /** Interfaces built from different identifiers are unequal, whatever their localities. */
  lemma DistinctIdsAreDistinguished(l1: LocalityData, l2: LocalityData, id1: UID, id2: UID)
    ensures NotEquals(Create(l1, id1), Create(l2, id2)) <==> id1 != id2
  {
  }

  /** `==` is an equivalence relation. */
  lemma EqualsIsEquivalence()
    ensures forall a :: Equals(a, a)
    ensures forall a, b :: Equals(a, b) <==> Equals(b, a)
    ensures forall a, b, c :: Equals(a, b) && Equals(b, c) ==> Equals(a, c)
  {
  }

  /** `!=` is irreflexive and symmetric, being the negation of `==`. */
  lemma NotEqualsIsNegation(a: RatekeeperInterface, b: RatekeeperInterface)
    ensures NotEquals(a, b) <==> Id(a) != Id(b)
    ensures !NotEquals(a, a)
    ensures NotEquals(a, b) <==> NotEquals(b, a)
  {
  }
}
