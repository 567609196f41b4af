/** Progressive bracket tables and the bracket walk of the tax calculator.
    A table is an ordered list of (upper bound, marginal rate) brackets; the
    first bracket starts at 0 and the last has no upper bound. Rates are whole
    percents, so a walk yields the base tax in paise (rupees x percent). */
module Slabs {
  import opened Rounding

  /** An upper bound of a bracket; `Unbounded` stands for the source's `float('inf')`. */
  datatype Bound = Finite(n: int) | Unbounded

  datatype Slab = Slab(upper: Bound, ratePct: nat)

  /** `income > bound`; no finite income exceeds the unbounded bracket. */
  predicate Exceeds(income: int, b: Bound) {
    b.Finite? && income > b.n
  }

  /** Brackets from `prev` upwards: strictly increasing finite upper bounds,
      ending in exactly one unbounded bracket. */
  predicate ValidFrom(t: seq<Slab>, prev: int)
    decreases |t|
  {
    |t| > 0 &&
    match t[0].upper
    case Unbounded => |t| == 1
    case Finite(n) => prev < n && ValidFrom(t[1..], n)
  }

  /** A well-formed table starting at income 0. */
  predicate ValidTable(t: seq<Slab>) {
    ValidFrom(t, 0)
  }

  /** The bracket walk exactly as the calculator's loop performs it: every
      bracket the income exceeds adds its full width times its rate; the
      first bracket it does not exceed adds the part of the income above the
      previous bound and ends the walk. A table that runs out adds nothing
      more. Result in paise. */
  function SlabWalk(income: int, t: seq<Slab>, prev: int): int
    decreases |t|
  {
    if t == [] then 0
    else if Exceeds(income, t[0].upper) then
      (t[0].upper.n - prev) * t[0].ratePct + SlabWalk(income, t[1..], t[0].upper.n)
    else
      (income - prev) * t[0].ratePct
  }

  /** The part of [0, income] that lies inside the bracket (lo, upper]. */
  function Overlap(income: int, lo: int, upper: Bound): int {
    match upper
    case Unbounded => Max(0, income - lo)
    case Finite(hi) => Max(0, Min(income, hi) - lo)
  }

  /** Independent reference definition of progressive tax: the sum over all
      brackets of (overlap of the bracket with [0, income]) x rate. */
  function OverlapSum(income: int, t: seq<Slab>, prev: int): int
    decreases |t|
  {
    if t == [] then 0
    else
      var next := if t[0].upper.Finite? then t[0].upper.n else prev;
      Overlap(income, prev, t[0].upper) * t[0].ratePct + OverlapSum(income, t[1..], next)
  }

  /** The tax of every bracket taken at full width (the brackets must all be finite). */
  function FullWidths(t: seq<Slab>, prev: int): int
    decreases |t|
  {
    if t == [] then 0
    else
      match t[0].upper
      case Unbounded => 0
      case Finite(n) => (n - prev) * t[0].ratePct + FullWidths(t[1..], n)
  }

  /** The walk always stops inside a valid table: some bracket k is not
      exceeded while every bracket before it is, so the loop's `break` is
      reached at the latest at the unbounded last bracket. */
  lemma {:induction false} WalkStopsInTable(income: int, t: seq<Slab>, prev: int) returns (k: nat)
    requires ValidFrom(t, prev)
    ensures k < |t| && !Exceeds(income, t[k].upper)
    ensures forall j :: 0 <= j < k ==> Exceeds(income, t[j].upper)
    decreases |t|
  {
    if !Exceeds(income, t[0].upper) {
      k := 0;
    } else {
      var k' := WalkStopsInTable(income, t[1..], t[0].upper.n);
      k := k' + 1;
      forall j | 0 <= j < k
        ensures Exceeds(income, t[j].upper)
      {
        if j > 0 {
          assert t[j] == t[1..][j - 1];
        }
      }
    }
  }

  /** Brackets that lie entirely above the income contribute nothing. */
  lemma {:induction false} OverlapSumAbove(income: int, t: seq<Slab>, prev: int)
    requires ValidFrom(t, prev) && income <= prev
    ensures OverlapSum(income, t, prev) == 0
    decreases |t|
  {
    if t[0].upper.Finite? {
      OverlapSumAbove(income, t[1..], t[0].upper.n);
    }
  }

  /** The loop's walk computes the bracket integral: it equals the sum of
      overlap x rate over all brackets, for every income at or above the start. */
  lemma {:induction false} SlabWalkIsBracketIntegral(income: int, t: seq<Slab>, prev: int)
    requires ValidFrom(t, prev) && income >= prev
    ensures SlabWalk(income, t, prev) == OverlapSum(income, t, prev)
    decreases |t|
  {
    match t[0].upper
    case Unbounded =>
      assert t[1..] == [];
    case Finite(n) =>
      if income > n {
        SlabWalkIsBracketIntegral(income, t[1..], n);
      } else {
        OverlapSumAbove(income, t[1..], n);
      }
  }

  /** The walk never produces a negative base tax. */
  lemma {:induction false} SlabWalkNonNegative(income: int, t: seq<Slab>, prev: int)
    requires ValidFrom(t, prev) && income >= prev
    ensures SlabWalk(income, t, prev) >= 0
    decreases |t|
  {
    if Exceeds(income, t[0].upper) {
      SlabWalkNonNegative(income, t[1..], t[0].upper.n);
    }
  }

  /** Base tax is non-decreasing in income. */
  lemma {:induction false} SlabWalkMonotone(a: int, b: int, t: seq<Slab>, prev: int)
    requires ValidFrom(t, prev) && prev <= a <= b
    ensures SlabWalk(a, t, prev) <= SlabWalk(b, t, prev)
    decreases |t|
  {
    var r := t[0].ratePct;
    match t[0].upper
    case Unbounded =>
      MulLe(a - prev, b - prev, r);
    case Finite(n) =>
      if a > n {
        SlabWalkMonotone(a, b, t[1..], n);
      } else if b > n {
        MulLe(a - prev, n - prev, r);
        SlabWalkNonNegative(b, t[1..], n);
      } else {
        MulLe(a - prev, b - prev, r);
      }
  }

  /** Every finite upper bound in a valid table lies above the table's start. */
  lemma {:induction false} BoundAboveStart(t: seq<Slab>, prev: int, k: nat)
    requires ValidFrom(t, prev) && k < |t| && t[k].upper.Finite?
    ensures t[k].upper.n > prev
    decreases k
  {
    if k > 0 {
      BoundAboveStart(t[1..], t[0].upper.n, k - 1);
    }
  }

  /** At an income exactly equal to the upper bound of bracket k, brackets 0..k
      are counted at full width and no later bracket contributes. */
  lemma {:induction false} SlabWalkAtBoundary(t: seq<Slab>, prev: int, k: nat)
    requires ValidFrom(t, prev) && k < |t| && t[k].upper.Finite?
    ensures SlabWalk(t[k].upper.n, t, prev) == FullWidths(t[..k + 1], prev)
    decreases k
  {
    var x := t[k].upper.n;
    if k == 0 {
      assert t[..1][1..] == [];
    } else {
      var n := t[0].upper.n;
      BoundAboveStart(t[1..], n, k - 1);
      assert Exceeds(x, t[0].upper);
      SlabWalkAtBoundary(t[1..], n, k - 1);
      assert t[..k + 1][1..] == t[1..][..k];
    }
  }
}
