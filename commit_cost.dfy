/**
 * `TransactionCommitCostEstimation`: a per-tag commit-cost record holding an
 * operation count (`opsSum`, a C++ `int`) and a cost total (`costSum`, a
 * `uint64_t`), merged with `+=` by field-wise addition.
 *
 * `opsSum += other.opsSum` is signed arithmetic whose overflow is undefined, so
 * every merge requires the sum to stay in the 32-bit range. `costSum +=
 * other.costSum` is unsigned and wraps modulo 2^64, which is modelled exactly.
 */
module CommitCost {
  import opened FixedWidth

  /** The value held by a `TransactionCommitCostEstimation`. */
  datatype Estimate = Estimate(opsSum: int32, costSum: uint64)

  /** A default-constructed estimate: both fields start at zero. */
  const Zero: Estimate := Estimate(0, 0)

  /** `a += b` is defined: the operation counts add without signed overflow. */
  predicate CanMerge(a: Estimate, b: Estimate) {
    InInt32(a.opsSum as int + b.opsSum as int)
  }

  /** The value of `a` after `a += b`. */
  function Merge(a: Estimate, b: Estimate): (r: Estimate)
    requires CanMerge(a, b)
    ensures r.opsSum as int - a.opsSum as int == b.opsSum as int
    ensures (r.costSum as int - a.costSum as int) % TWO_TO_THE_64 == b.costSum as int
  {
    Estimate((a.opsSum as int + b.opsSum as int) as int32, AddUint64(a.costSum, b.costSum))
  }

  /** Merging a zero estimate, on either side, changes nothing. */
  lemma ZeroIsIdentity(a: Estimate)
    ensures CanMerge(a, Zero) && Merge(a, Zero) == a
    ensures CanMerge(Zero, a) && Merge(Zero, a) == a
  {
  }

  lemma MergeCommutes(a: Estimate, b: Estimate)
    requires CanMerge(a, b)
    ensures CanMerge(b, a) && Merge(a, b) == Merge(b, a)
  {
  }

  /**
   * Associativity, whenever every partial operation count involved fits in
   * an `int`; the cost totals need no such condition.
   */
  lemma MergeAssociates(a: Estimate, b: Estimate, c: Estimate)
    requires CanMerge(a, b) && CanMerge(b, c)
    requires InInt32(a.opsSum as int + b.opsSum as int + c.opsSum as int)
    ensures CanMerge(Merge(a, b), c) && CanMerge(a, Merge(b, c))
    ensures Merge(Merge(a, b), c) == Merge(a, Merge(b, c))
  {
  }

  /**
   * `a += a` doubles both fields, so it leaves `a` unchanged only when `a` is
   * the zero estimate.
   */
  lemma SelfMergeDoubles(a: Estimate)
    requires CanMerge(a, a)
    ensures Merge(a, a).opsSum as int == 2 * a.opsSum as int
    ensures Merge(a, a).costSum as int == (2 * a.costSum as int) % TWO_TO_THE_64
    ensures Merge(a, a) == a <==> a == Zero
  {
  }

  /**
   * Merging the same report `r` a second time into an accumulator changes the
   * accumulator again unless `r` is zero: a re-delivered report is counted twice.
   */
  lemma RemergeCountsTwice(acc: Estimate, r: Estimate)
    requires CanMerge(acc, r)
    requires InInt32(acc.opsSum as int + 2 * r.opsSum as int)
    ensures CanMerge(Merge(acc, r), r)
    ensures Merge(Merge(acc, r), r).opsSum as int == acc.opsSum as int + 2 * r.opsSum as int
    ensures Merge(Merge(acc, r), r).costSum as int == (acc.costSum as int + 2 * r.costSum as int) % TWO_TO_THE_64
    ensures Merge(Merge(acc, r), r) == Merge(acc, r) <==> r == Zero
  {
  }

  /** Unbounded field-wise totals of a sequence of estimates. */
  datatype Sums = Sums(ops: int, cost: int)

  /** The mathematical field-wise sum of `s`, with no width limit. */
  function Total(s: seq<Estimate>): Sums
  {
    if s == [] then Sums(0, 0)
    else
      var p := Total(s[..|s| - 1]);
      Sums(p.ops + s[|s| - 1].opsSum as int, p.cost + s[|s| - 1].costSum as int)
  }

  /** Folding `s` from zero with `+=` never overflows the operation count. */
  predicate NoOverflow(s: seq<Estimate>) {
    forall k :: 0 <= k <= |s| ==> InInt32(Total(s[..k]).ops)
  }

  /**
   * The value obtained by starting from a default estimate and applying
   * `+= s[0]`, `+= s[1]`, ... in order: the field-wise sum of `s`, the cost
   * reduced modulo 2^64.
   */
  function Fold(s: seq<Estimate>): (r: Estimate)
    requires NoOverflow(s)
    ensures r.opsSum as int == Total(s).ops
    ensures r.costSum as int == Total(s).cost % TWO_TO_THE_64
  {
    if s == [] then Zero
    else
      var init := s[..|s| - 1];
      assert s[..|s|] == s;
      assert forall k :: 0 <= k <= |init| ==> init[..k] == s[..k];
      ModAddLeft(Total(init).cost, s[|s| - 1].costSum as int);
      Merge(Fold(init), s[|s| - 1])
  }

  /** Totals distribute over concatenation. */
  lemma {:induction false} TotalConcat(s: seq<Estimate>, t: seq<Estimate>)
    ensures Total(s + t) == Sums(Total(s).ops + Total(t).ops, Total(s).cost + Total(t).cost)
    decreases |t|
  {
    if t == [] {
      assert s + t == s;
    } else {
      var init := t[..|t| - 1];
      assert (s + t)[..|s + t| - 1] == s + init;
      TotalConcat(s, init);
    }
  }

  /** Taking one estimate out of a sequence takes its fields out of the totals. */
  lemma {:induction false} TotalRemove(t: seq<Estimate>, i: nat)
    requires i < |t|
    ensures Total(t).ops == Total(t[..i] + t[i + 1..]).ops + t[i].opsSum as int
    ensures Total(t).cost == Total(t[..i] + t[i + 1..]).cost + t[i].costSum as int
  {
    var before, after, x := t[..i], t[i + 1..], t[i];
    var upTo := before + [x];
    assert t == upTo + after;
    assert upTo[..|upTo| - 1] == before;
    assert Total(upTo) == Sums(Total(before).ops + x.opsSum as int, Total(before).cost + x.costSum as int);
    TotalConcat(upTo, after);
    TotalConcat(before, after);
  }

  /** Removing the last element of `s` and a matching element of a permutation `t` leaves permutations. */
  lemma {:induction false} MultisetRemove(s: seq<Estimate>, t: seq<Estimate>, i: nat)
    requires multiset(s) == multiset(t) && s != [] && i < |t| && t[i] == s[|s| - 1]
    ensures multiset(s[..|s| - 1]) == multiset(t[..i] + t[i + 1..])
  {
    var init, x := s[..|s| - 1], s[|s| - 1];
    assert s == init + [x];
    assert t == t[..i] + [x] + t[i + 1..];
    assert multiset(t) == multiset(t[..i]) + multiset{x} + multiset(t[i + 1..]);
    assert multiset(t[..i] + t[i + 1..]) == multiset(t[..i]) + multiset(t[i + 1..]);
    assert multiset(init) == multiset(s) - multiset{x};
  }

  /** Totals depend only on the multiset of estimates, not their order. */
  lemma {:induction false} TotalPermutation(s: seq<Estimate>, t: seq<Estimate>)
    requires multiset(s) == multiset(t)
    ensures Total(s) == Total(t)
    decreases |s|
  {
    if s == [] {
      assert |t| == |multiset(t)| == 0;
    } else {
      var x := s[|s| - 1];
      assert x in multiset(s);
      var i :| 0 <= i < |t| && t[i] == x;
      MultisetRemove(s, t, i);
      TotalPermutation(s[..|s| - 1], t[..i] + t[i + 1..]);
      TotalRemove(t, i);
    }
  }

  /**
   * Folding a sequence of reports gives the same estimate whatever order
   * they arrive in, provided neither order overflows the operation count.
   */
  lemma FoldPermutation(s: seq<Estimate>, t: seq<Estimate>)
    requires multiset(s) == multiset(t)
    requires NoOverflow(s) && NoOverflow(t)
    ensures Fold(s) == Fold(t)
  {
    TotalPermutation(s, t);
  }

  /** Folding two batches separately and merging the results equals folding them together. */
  lemma FoldConcat(s: seq<Estimate>, t: seq<Estimate>)
    requires NoOverflow(s + t) && NoOverflow(t)
    ensures NoOverflow(s)
    ensures CanMerge(Fold(s), Fold(t))
    ensures Fold(s + t) == Merge(Fold(s), Fold(t))
  {
    forall k | 0 <= k <= |s|
      ensures InInt32(Total(s[..k]).ops)
    {
      assert (s + t)[..k] == s[..k];
    }
    assert (s + t)[..|s + t|] == s + t;
    TotalConcat(s, t);
    ModAddLeft(Total(s).cost, Total(t).cost);
    ModAddLeft(Total(t).cost, Total(s).cost % TWO_TO_THE_64);
  }

  /**
   * Operation counts are non-negative in practice; then only the grand total
   * has to fit in an `int` for the whole fold to be defined.
   */
  lemma {:induction false} NonNegativeFoldDefined(s: seq<Estimate>)
    requires forall i :: 0 <= i < |s| ==> s[i].opsSum >= 0
    requires InInt32(Total(s).ops)
    ensures NoOverflow(s)
    decreases |s|
  {
    if s != [] {
      var init := s[..|s| - 1];
      assert Total(s).ops == Total(init).ops + s[|s| - 1].opsSum as int;
      NonNegativeTotal(init);
      NonNegativeFoldDefined(init);
      forall k | 0 <= k <= |s|
        ensures InInt32(Total(s[..k]).ops)
      {
        if k < |s| {
          assert s[..k] == init[..k];
        } else {
          assert s[..k] == s;
        }
      }
    }
  }

  lemma {:induction false} NonNegativeTotal(s: seq<Estimate>)
    requires forall i :: 0 <= i < |s| ==> s[i].opsSum >= 0
    ensures Total(s).ops >= 0
    decreases |s|
  {
    if s != [] {
      NonNegativeTotal(s[..|s| - 1]);
    }
  }

  /** The in-place record itself. */
  class TransactionCommitCostEstimation {
    var opsSum: int32
    var costSum: uint64

    /** The default constructor: both fields zero. */
    constructor ()
      ensures Value() == Zero
    {
      opsSum := 0;
      costSum := 0;
    }

    /** The value currently stored. */
    function Value(): Estimate
      reads this
    {
      Estimate(opsSum, costSum)
    }

    function GetCostSum(): (r: uint64)
      reads this
      ensures r == Value().costSum
    {
      costSum
    }

    function GetOpsSum(): (r: int32)
      reads this
      ensures r == Value().opsSum
    {
      opsSum
    }

    /**
     * `*this += other`: adds `other`'s fields into this record and returns this
     * record. `other` may be this very record, in which case both fields double.
     */
    method MergeFrom(other: TransactionCommitCostEstimation) returns (self: TransactionCommitCostEstimation)
      requires CanMerge(Value(), other.Value())
      modifies this
      ensures self == this
      ensures Value() == Merge(old(Value()), old(other.Value()))
      ensures other != this ==> other.Value() == old(other.Value())
    {
      opsSum := (opsSum as int + other.opsSum as int) as int32;
      costSum := AddUint64(costSum, other.costSum);
      self := this;
    }
  }

  /** What a caller can conclude from the contracts: two reports for one tag merge to their sum. */
  method MergeTwoReportsExample()
  {
    var total := new TransactionCommitCostEstimation();
    var fromA := new TransactionCommitCostEstimation();
    fromA.opsSum, fromA.costSum := 5, 50;
    var fromB := new TransactionCommitCostEstimation();
    fromB.opsSum, fromB.costSum := 3, 20;
    var same := total.MergeFrom(fromA);
    assert total.Value() == Estimate(5, 50);
    same := total.MergeFrom(fromB);
    assert total.Value() == Estimate(8, 70);
  }

  /** Merging a record into itself doubles both of its fields. */
  method SelfMergeExample()
  {
    var e := new TransactionCommitCostEstimation();
    e.opsSum, e.costSum := 3, 20;
    var same := e.MergeFrom(e);
    assert e.Value() == Estimate(6, 40);
  }
}
