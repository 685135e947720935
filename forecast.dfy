/**
 * A demand forecast is the sequence of predicted daily quantities, index 0
 * being the first day of the horizon. This module holds the prefix sums and
 * the first-day searches that the alert classifier and the quantity
 * suggester are written in terms of.
 */
module Forecast {
  import opened Wrappers

  /** The quantity predicted for day i; days outside the horizon predict nothing. */
  function At(p: seq<nat>, i: int): nat {
    if 0 <= i < |p| then p[i] else 0
  }

  /** The predicted quantities of the days in [s, e) that fall inside the horizon. */
  function Sum(p: seq<nat>, s: int, e: int): nat
    decreases e - s
  {
    if e <= s then 0 else Sum(p, s, e - 1) + At(p, e - 1)
  }

  /** Length of the Python slice p[:k] (a negative k counts from the end). */
  function PrefixLength(n: nat, k: int): (r: nat)
    ensures r <= n
    ensures 0 <= k ==> r == if k < n then k else n
    ensures k < 0 ==> r == if n + k < 0 then 0 else n + k
  {
    if k >= 0 then (if k < n then k else n)
    else if n + k < 0 then 0 else n + k
  }

  lemma {:induction false} SumSplit(p: seq<nat>, s: int, m: int, e: int)
    requires s <= m <= e
    ensures Sum(p, s, e) == Sum(p, s, m) + Sum(p, m, e)
    decreases e - m
  {
    if m < e {
      SumSplit(p, s, m, e - 1);
    }
  }

  /** Widening the window never lowers the sum. */
  lemma SumMonotone(p: seq<nat>, s: int, e1: int, e2: int)
    requires e1 <= e2
    ensures Sum(p, s, e1) <= Sum(p, s, e2)
  {
    if s <= e1 {
      SumSplit(p, s, e1, e2);
    }
  }

  /** Days past the end of the horizon add nothing. */
  lemma {:induction false} SumBeyondHorizon(p: seq<nat>, s: int, e: int)
    requires |p| <= e
    ensures Sum(p, s, e) == Sum(p, s, |p|)
    decreases e - |p|
  {
    if |p| < e {
      SumBeyondHorizon(p, s, e - 1);
    }
  }

  /** Days before the start of the horizon add nothing. */
  lemma {:induction false} SumBeforeHorizon(p: seq<nat>, s: int, e: int)
    requires s <= 0
    ensures Sum(p, s, e) == Sum(p, 0, e)
    decreases e - s
  {
    if e > s {
      SumBeforeHorizon(p, s, e - 1);
    }
  }

  /** No window of days sums to more than the whole horizon. */
  lemma SumAtMostTotal(p: seq<nat>, e: int)
    ensures Sum(p, 0, e) <= Sum(p, 0, |p|)
  {
    if e <= |p| {
      SumMonotone(p, 0, e, |p|);
    } else {
      SumBeyondHorizon(p, 0, e);
    }
  }

  /**
   * The day-by-day conditions the searches look for:
   * Stockout: the running stock goes negative at the end of day i;
   * Deadline: what is left after i + lead days no longer exceeds day i's demand;
   * Covered: the stock no longer exceeds the demand of the first i + window days.
   */
  datatype Probe =
    | Stockout(stock: int)
    | Deadline(stock: int, lead: int)
    | Covered(stock: int, window: int)

  predicate Hit(p: seq<nat>, probe: Probe, i: int) {
    match probe
    case Stockout(stock) => stock - Sum(p, 0, i + 1) < 0
    case Deadline(stock, lead) => stock - Sum(p, 0, i + lead) <= At(p, i)
    case Covered(stock, window) => stock <= Sum(p, 0, i + window)
  }

  /** The first day in [i, n) where the probe hits, if any. */
  function First(p: seq<nat>, probe: Probe, i: nat, n: nat): (r: Option<nat>)
    ensures r.Some? ==> i <= r.value < n && Hit(p, probe, r.value)
    ensures r.Some? ==> forall j :: i <= j < r.value ==> !Hit(p, probe, j)
    ensures r.None? ==> forall j :: i <= j < n ==> !Hit(p, probe, j)
    decreases n - i
  {
    if n <= i then None
    else if Hit(p, probe, i) then Some(i)
    else First(p, probe, i + 1, n)
  }

  /** A day on which the probe hits bounds the first such day. */
  lemma FirstAtMost(p: seq<nat>, probe: Probe, i: nat, n: nat, k: nat)
    requires i <= k < n && Hit(p, probe, k)
    ensures First(p, probe, i, n).Some? && First(p, probe, i, n).value <= k
  {
  }
}
