/** The two present-value engines of ext/c_helper/backsolve_cf.c:
    `_compute_pv` (a discount chained period by period over a reference
    curve plus a spread) and `_compute_pv_for_irr` (a flat, annually
    compounded Actual/365 rate anchored at the first date). Every `double`
    is a `real`. Each engine is given as a specification function over
    sequences and as the source's loop over arrays, proved equal to it. */
module PresentValue {

  /** What both engines return for an empty schedule. */
  const EmptySchedule: real := -997.0

  /** The day-count denominator of the flat-rate engine. */
  const DaysPerYear: real := 365.0

  /** Real division, made total. The source assumes its denominators are
      never zero; where one is, the IEEE infinity or NaN it would produce is
      not modelled and this yields 0. */
  function Div(a: real, b: real): real
  {
    if b == 0.0 then 0.0 else a / b
  }

  /** Dividing by `b` is multiplying by `1/b`, zero divisors included. */
  lemma DivIsReciprocal(a: real, b: real)
    ensures Div(a, b) == a * Div(1.0, b)
  {
  }

  // ---------------------------------------------------------------------
  // Spread over a reference curve (`_compute_pv`)
  // ---------------------------------------------------------------------

  /** Start of period `k`: the previous date, and 0 before the first one. */
  function PeriodStart(dates: seq<real>, k: nat): real
    requires k < |dates|
  {
    if k == 0 then 0.0 else dates[k - 1]
  }

  /** Growth over one period at simple rate `rate`:
      `1 + rate * elapsed / yearConvention`. */
  function Growth(rate: real, elapsed: real, yearConvention: real): real
  {
    1.0 + Div(rate * elapsed, yearConvention)
  }

  /** Growth over period `k` at the all-in rate `libor[k] + spread`. */
  function PeriodFactor(dates: seq<real>, libor: seq<real>, yearConvention: real, spread: real, k: nat): real
    requires k < |dates| && k < |libor|
  {
    Growth(libor[k] + spread, dates[k] - PeriodStart(dates, k), yearConvention)
  }

  /** The running discount factor after `t` periods, divided down one period
      at a time as the loop does. */
  function ChainedDiscount(dates: seq<real>, libor: seq<real>, yearConvention: real, spread: real, t: nat): real
    requires t <= |dates| && t <= |libor|
  {
    if t == 0 then 1.0
    else Div(ChainedDiscount(dates, libor, yearConvention, spread, t - 1),
             PeriodFactor(dates, libor, yearConvention, spread, t - 1))
  }

  /** Reference definition: the product over the first `t` periods of the
      reciprocal period factors. */
  function ReciprocalProduct(dates: seq<real>, libor: seq<real>, yearConvention: real, spread: real, t: nat): real
    requires t <= |dates| && t <= |libor|
  {
    if t == 0 then 1.0
    else ReciprocalProduct(dates, libor, yearConvention, spread, t - 1)
         * Div(1.0, PeriodFactor(dates, libor, yearConvention, spread, t - 1))
  }

  /** Sum of the first `t` cash flows, cash flow `k` weighted by the discount
      factor after period `k`. */
  function DiscountedSum(cfs: seq<real>, dates: seq<real>, libor: seq<real>, yearConvention: real, spread: real, t: nat): real
    requires t <= |cfs| && t <= |dates| && t <= |libor|
  {
    if t == 0 then 0.0
    else DiscountedSum(cfs, dates, libor, yearConvention, spread, t - 1)
         + cfs[t - 1] * ChainedDiscount(dates, libor, yearConvention, spread, t)
  }

  /** `_compute_pv` as a value: the sentinel for an empty schedule, and
      otherwise each cash flow weighted by the product of the reciprocal
      period factors up to its own date, less the accrued interest when the
      value is clean. */
  function SpreadPv(cfs: seq<real>, dates: seq<real>, libor: seq<real>, numCfs: int,
                    isClean: bool, accruedInterest: real, yearConvention: real, spread: real): (pv: real)
    requires numCfs <= |cfs| && numCfs <= |dates| && numCfs <= |libor|
    ensures numCfs <= 0 ==> pv == EmptySchedule
    ensures numCfs > 0 ==>
      pv + (if isClean then accruedInterest else 0.0)
      == ProductWeightedSum(cfs, dates, libor, yearConvention, spread, numCfs)
  {
    if numCfs > 0 then
      DiscountedSumIsProductWeighted(cfs, dates, libor, yearConvention, spread, numCfs);
      DiscountedSum(cfs, dates, libor, yearConvention, spread, numCfs)
      - (if isClean then accruedInterest else 0.0)
    else EmptySchedule
  }

  /** The chained factor is the product of the per-period reciprocals: cash
      flow `t` is weighted by the product over periods 0..t of
      `1 / (1 + (libor[k] + spread) * (dates[k] - dates[k-1]) / yearConvention)`. */
  lemma {:induction false} ChainedIsProduct(dates: seq<real>, libor: seq<real>, yearConvention: real, spread: real, t: nat)
    requires t <= |dates| && t <= |libor|
    ensures ChainedDiscount(dates, libor, yearConvention, spread, t)
         == ReciprocalProduct(dates, libor, yearConvention, spread, t)
  {
    if t > 0 {
      ChainedIsProduct(dates, libor, yearConvention, spread, t - 1);
      DivIsReciprocal(ChainedDiscount(dates, libor, yearConvention, spread, t - 1),
                      PeriodFactor(dates, libor, yearConvention, spread, t - 1));
    }
  }

  /** Reference definition of the sum: cash flow `k` weighted by
      `ReciprocalProduct` over periods 0..k. */
  function ProductWeightedSum(cfs: seq<real>, dates: seq<real>, libor: seq<real>, yearConvention: real, spread: real, t: nat): real
    requires t <= |cfs| && t <= |dates| && t <= |libor|
  {
    if t == 0 then 0.0
    else ProductWeightedSum(cfs, dates, libor, yearConvention, spread, t - 1)
         + cfs[t - 1] * ReciprocalProduct(dates, libor, yearConvention, spread, t)
  }

  lemma {:induction false} DiscountedSumIsProductWeighted(cfs: seq<real>, dates: seq<real>, libor: seq<real>,
                                                          yearConvention: real, spread: real, t: nat)
    requires t <= |cfs| && t <= |dates| && t <= |libor|
    ensures DiscountedSum(cfs, dates, libor, yearConvention, spread, t)
         == ProductWeightedSum(cfs, dates, libor, yearConvention, spread, t)
  {
    if t > 0 {
      DiscountedSumIsProductWeighted(cfs, dates, libor, yearConvention, spread, t - 1);
      ChainedIsProduct(dates, libor, yearConvention, spread, t);
    }
  }

  /** Sum of the first `t` entries of a sequence. */
  function Total(s: seq<real>, t: nat): real
    requires t <= |s|
  {
    if t == 0 then 0.0 else Total(s, t - 1) + s[t - 1]
  }

  /** An empty schedule yields the sentinel; otherwise the clean value is
      the dirty one less the accrued interest, and the dirty one does not
      depend on the accrued interest. */
  lemma SpreadPvCleanDirty(cfs: seq<real>, dates: seq<real>, libor: seq<real>, numCfs: int,
                           accruedInterest: real, yearConvention: real, spread: real)
    requires numCfs <= |cfs| && numCfs <= |dates| && numCfs <= |libor|
    ensures numCfs <= 0 ==>
      SpreadPv(cfs, dates, libor, numCfs, true, accruedInterest, yearConvention, spread) == EmptySchedule &&
      SpreadPv(cfs, dates, libor, numCfs, false, accruedInterest, yearConvention, spread) == EmptySchedule
    ensures numCfs > 0 ==>
      SpreadPv(cfs, dates, libor, numCfs, true, accruedInterest, yearConvention, spread)
      == SpreadPv(cfs, dates, libor, numCfs, false, accruedInterest, yearConvention, spread) - accruedInterest
    ensures SpreadPv(cfs, dates, libor, numCfs, false, accruedInterest, yearConvention, spread)
         == SpreadPv(cfs, dates, libor, numCfs, false, 0.0, yearConvention, spread)
  {
  }

  /** When every period's all-in rate is zero, nothing is discounted. */
  lemma {:induction false} ZeroRateSum(cfs: seq<real>, dates: seq<real>, libor: seq<real>, yearConvention: real, spread: real, t: nat)
    requires t <= |cfs| && t <= |dates| && t <= |libor|
    requires forall k :: 0 <= k < t ==> libor[k] + spread == 0.0
    ensures ChainedDiscount(dates, libor, yearConvention, spread, t) == 1.0
    ensures DiscountedSum(cfs, dates, libor, yearConvention, spread, t) == Total(cfs, t)
  {
    if t > 0 {
      ZeroRateSum(cfs, dates, libor, yearConvention, spread, t - 1);
      assert libor[t - 1] + spread == 0.0;
      assert PeriodFactor(dates, libor, yearConvention, spread, t - 1) == 1.0;
    }
  }

  /** At a zero all-in rate the spread engine returns the plain sum of the
      cash flows (less accrued interest when clean). */
  lemma SpreadPvAtZeroRate(cfs: seq<real>, dates: seq<real>, libor: seq<real>, numCfs: int,
                           isClean: bool, accruedInterest: real, yearConvention: real, spread: real)
    requires 0 < numCfs <= |cfs| && numCfs <= |dates| && numCfs <= |libor|
    requires forall k :: 0 <= k < numCfs ==> libor[k] + spread == 0.0
    ensures SpreadPv(cfs, dates, libor, numCfs, isClean, accruedInterest, yearConvention, spread)
         == Total(cfs, numCfs) - (if isClean then accruedInterest else 0.0)
  {
    ZeroRateSum(cfs, dates, libor, yearConvention, spread, numCfs);
  }

  /** A single cash flow is divided once, by its own period factor measured
      from date 0. */
  lemma SpreadPvSingle(c: real, d: real, l: real, isClean: bool, accruedInterest: real, yearConvention: real, spread: real)
    requires yearConvention != 0.0
    requires 1.0 + (l + spread) * d / yearConvention != 0.0
    ensures SpreadPv([c], [d], [l], 1, isClean, accruedInterest, yearConvention, spread)
         == c / (1.0 + (l + spread) * d / yearConvention) - (if isClean then accruedInterest else 0.0)
  {
    var p := 1.0 + (l + spread) * d / yearConvention;
    assert (l + spread) * (d - 0.0) == (l + spread) * d;
    assert PeriodFactor([d], [l], yearConvention, spread, 0) == p;
    assert ChainedDiscount([d], [l], yearConvention, spread, 1) == 1.0 / p;
    assert DiscountedSum([c], [d], [l], yearConvention, spread, 1) == c * (1.0 / p);
    assert c * (1.0 / p) == c / p;
  }

  /** `_compute_pv`: the loop over the first `numCfs` entries of the arrays. */
  method ComputePv(cfs: array<real>, dates: array<real>, libor: array<real>, numCfs: int,
                   isClean: bool, accruedInterest: real, yearConvention: real, spread: real) returns (pv: real)
    requires numCfs <= cfs.Length && numCfs <= dates.Length && numCfs <= libor.Length
    ensures pv == SpreadPv(cfs[..], dates[..], libor[..], numCfs, isClean, accruedInterest, yearConvention, spread)
  {
    var discountFactor, prevCumulDate, cumulPv := 1.0, 0.0, 0.0;
    if numCfs > 0 {
      var t := 0;
      while t < numCfs
        invariant 0 <= t <= numCfs
        invariant prevCumulDate == if t == 0 then 0.0 else dates[t - 1]
        invariant discountFactor == ChainedDiscount(dates[..], libor[..], yearConvention, spread, t)
        invariant cumulPv == DiscountedSum(cfs[..], dates[..], libor[..], yearConvention, spread, t)
      {
        var discountRate := libor[t] + spread;
        assert PeriodStart(dates[..], t) == prevCumulDate;
        assert dates[..][t] == dates[t] && libor[..][t] == libor[t];
        discountFactor := Div(discountFactor, Growth(discountRate, dates[t] - prevCumulDate, yearConvention));
        cumulPv := cumulPv + cfs[t] * discountFactor;
        prevCumulDate := dates[t];
        t := t + 1;
      }
      if isClean {
        cumulPv := cumulPv - accruedInterest;
      }
      pv := cumulPv;
    } else {
      pv := EmptySchedule;
    }
  }

  // ---------------------------------------------------------------------
  // Flat annual rate (`_compute_pv_for_irr`)
  // ---------------------------------------------------------------------

  /** Discount factor of cash flow `t` at rate `irr`:
      `1 / pow(1 + irr, (dates[t] - dates[0]) / 365)`. `pow` is the C
      library's and is taken as a parameter. */
  function IrrFactor(pow: (real, real) -> real, dates: seq<real>, irr: real, t: nat): real
    requires t < |dates|
  {
    Div(1.0, pow(1.0 + irr, (dates[t] - dates[0]) / DaysPerYear))
  }

  /** Sum of the first `t` cash flows, each discounted on its own. */
  function IrrSum(pow: (real, real) -> real, cfs: seq<real>, dates: seq<real>, irr: real, t: nat): real
    requires t <= |cfs| && t <= |dates|
  {
    if t == 0 then 0.0
    else IrrSum(pow, cfs, dates, irr, t - 1) + cfs[t - 1] * IrrFactor(pow, dates, irr, t - 1)
  }

  /** `_compute_pv_for_irr` as a value: the sentinel for an empty schedule,
      and otherwise a sum over the first `numCfs` entries alone, less the
      accrued interest when the value is clean. */
  function IrrPv(pow: (real, real) -> real, cfs: seq<real>, dates: seq<real>, numCfs: int,
                 isClean: bool, accruedInterest: real, irr: real): (pv: real)
    requires numCfs <= |cfs| && numCfs <= |dates|
    ensures numCfs <= 0 ==> pv == EmptySchedule
    ensures numCfs > 0 ==>
      pv + (if isClean then accruedInterest else 0.0)
      == IrrSum(pow, cfs[..numCfs], dates[..numCfs], irr, numCfs)
  {
    if numCfs > 0 then
      PrefixIrrSum(pow, cfs, dates, irr, numCfs, numCfs);
      IrrSum(pow, cfs, dates, irr, numCfs) - (if isClean then accruedInterest else 0.0)
    else EmptySchedule
  }

  /** The flat-rate sum reads only the first `n` entries. */
  lemma {:induction false} PrefixIrrSum(pow: (real, real) -> real, cfs: seq<real>, dates: seq<real>, irr: real, n: nat, t: nat)
    requires t <= n <= |cfs| && n <= |dates|
    ensures IrrSum(pow, cfs[..n], dates[..n], irr, t) == IrrSum(pow, cfs, dates, irr, t)
  {
    if t > 0 {
      PrefixIrrSum(pow, cfs, dates, irr, n, t - 1);
      assert IrrFactor(pow, dates[..n], irr, t - 1) == IrrFactor(pow, dates, irr, t - 1);
    }
  }

  /** The first cash flow is not discounted, given `pow(b, 0) == 1`; so a
      single cash flow is worth its face amount at every rate. */
  lemma IrrFirstFactor(pow: (real, real) -> real, cfs: seq<real>, dates: seq<real>, isClean: bool, accruedInterest: real, irr: real)
    requires |dates| > 0 && |cfs| > 0
    requires pow(1.0 + irr, 0.0) == 1.0
    ensures IrrFactor(pow, dates, irr, 0) == 1.0
    ensures IrrPv(pow, cfs, dates, 1, isClean, accruedInterest, irr)
         == cfs[0] - (if isClean then accruedInterest else 0.0)
  {
    assert IrrSum(pow, cfs, dates, irr, 1) == cfs[0] * IrrFactor(pow, dates, irr, 0);
  }

  /** An empty schedule yields the sentinel; otherwise the clean value is
      the dirty one less the accrued interest. */
  lemma IrrPvCleanDirty(pow: (real, real) -> real, cfs: seq<real>, dates: seq<real>, numCfs: int,
                        accruedInterest: real, irr: real)
    requires numCfs <= |cfs| && numCfs <= |dates|
    ensures numCfs <= 0 ==>
      IrrPv(pow, cfs, dates, numCfs, true, accruedInterest, irr) == EmptySchedule &&
      IrrPv(pow, cfs, dates, numCfs, false, accruedInterest, irr) == EmptySchedule
    ensures numCfs > 0 ==>
      IrrPv(pow, cfs, dates, numCfs, true, accruedInterest, irr)
      == IrrPv(pow, cfs, dates, numCfs, false, accruedInterest, irr) - accruedInterest
    ensures IrrPv(pow, cfs, dates, numCfs, false, accruedInterest, irr)
         == IrrPv(pow, cfs, dates, numCfs, false, 0.0, irr)
  {
  }

  /** Each factor depends only on the distance to the first date: moving the
      whole schedule by `shift` changes nothing. */
  lemma {:induction false} IrrSumShift(pow: (real, real) -> real, cfs: seq<real>, dates: seq<real>, moved: seq<real>, shift: real, irr: real, t: nat)
    requires t <= |cfs| && t <= |dates| && t <= |moved|
    requires forall k :: 0 <= k < |dates| && k < |moved| ==> moved[k] == dates[k] + shift
    ensures IrrSum(pow, cfs, moved, irr, t) == IrrSum(pow, cfs, dates, irr, t)
  {
    if t > 0 {
      IrrSumShift(pow, cfs, dates, moved, shift, irr, t - 1);
      assert moved[t - 1] - moved[0] == dates[t - 1] - dates[0];
    }
  }

  /** The flat-rate engine is unchanged when every date moves by the same amount. */
  lemma IrrPvShift(pow: (real, real) -> real, cfs: seq<real>, dates: seq<real>, moved: seq<real>, shift: real,
                   numCfs: int, isClean: bool, accruedInterest: real, irr: real)
    requires numCfs <= |cfs| && numCfs <= |dates| && numCfs <= |moved|
    requires forall k :: 0 <= k < |dates| && k < |moved| ==> moved[k] == dates[k] + shift
    ensures IrrPv(pow, cfs, moved, numCfs, isClean, accruedInterest, irr)
         == IrrPv(pow, cfs, dates, numCfs, isClean, accruedInterest, irr)
  {
    if numCfs > 0 {
      IrrSumShift(pow, cfs, dates, moved, shift, irr, numCfs);
    }
  }

  /** `_compute_pv_for_irr`: the loop over the first `numCfs` entries. */
  method ComputePvForIrr(pow: (real, real) -> real, cfs: array<real>, dates: array<real>, numCfs: int,
                         isClean: bool, accruedInterest: real, irr: real) returns (pv: real)
    requires numCfs <= cfs.Length && numCfs <= dates.Length
    ensures pv == IrrPv(pow, cfs[..], dates[..], numCfs, isClean, accruedInterest, irr)
  {
    var discountFactor, origDate, cumulPv := 1.0, 0.0, 0.0;
    var yearConvention := DaysPerYear;
    if numCfs > 0 {
      origDate := dates[0];
      var t := 0;
      while t < numCfs
        invariant 0 <= t <= numCfs
        invariant cumulPv == IrrSum(pow, cfs[..], dates[..], irr, t)
      {
        discountFactor := Div(1.0, pow(1.0 + irr, (dates[t] - origDate) / yearConvention));
        cumulPv := cumulPv + cfs[t] * discountFactor;
        t := t + 1;
      }
      if isClean {
        cumulPv := cumulPv - accruedInterest;
      }
      pv := cumulPv;
    } else {
      pv := EmptySchedule;
    }
  }
}
