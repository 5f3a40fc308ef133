/** The solvers and entry points of ext/c_helper/backsolve_cf.c:
    `_backsolve_cf` and `_backsolve_irr` run the secant loop against the two
    present-value engines; `backsolve_cf` and `backsolve_irr` check the
    schedule, copy it into working arrays, solve, and turn the solver's exit
    into a result or a failure. */
module Backsolve {
  import opened PresentValue
  import opened Secant

  /** The values `_backsolve_cf` / `_backsolve_irr` return in place of a
      root when the residual stops changing or the budget runs out. */
  const DivergedSentinel: real := -999.0
  const NotConvergedSentinel: real := -998.0

  /** Why a schedule is refused before any numeric work. */
  datatype ScheduleError = NoCashFlows | DatesNotIncreasing

  /** What an entry point delivers: the solved spread or yield, or one of
      the failures it raises. */
  datatype Solution =
    | Converged(value: real)
    | Diverged
    | NotConverged
    | InvalidSchedule(why: ScheduleError)

  // ---------------------------------------------------------------------
  // Schedule validation
  // ---------------------------------------------------------------------

  /** At least one cash flow, and every one of the first `numCfs` dates lies
      strictly after the one before it (after 0 for the first). */
  predicate ValidSchedule(dates: seq<real>, numCfs: int)
    ensures ValidSchedule(dates, numCfs) ==> 1 <= numCfs <= |dates| && 0.0 < dates[0]
  {
    1 <= numCfs <= |dates| && forall k :: 0 <= k < numCfs ==> PeriodStart(dates, k) < dates[k]
  }

  /** A valid schedule is positive and strictly increasing throughout, not
      only between neighbours. */
  lemma {:induction false} ValidScheduleOrdered(dates: seq<real>, numCfs: int, i: int, j: int)
    requires ValidSchedule(dates, numCfs)
    requires 0 <= i < j < numCfs
    ensures 0.0 < dates[i] < dates[j]
    decreases j
  {
    assert PeriodStart(dates, j) < dates[j];
    if i == j - 1 {
      if i == 0 {
        assert PeriodStart(dates, 0) < dates[0];
      } else {
        ValidScheduleOrdered(dates, numCfs, i - 1, i);
      }
    } else {
      ValidScheduleOrdered(dates, numCfs, i, j - 1);
    }
  }

  /** The check the entry points make, restated: at least one cash flow, a
      first date above 0, and dates strictly increasing. */
  lemma ValidScheduleIff(dates: seq<real>, numCfs: int)
    ensures ValidSchedule(dates, numCfs) <==>
      1 <= numCfs <= |dates| && dates[0] > 0.0 &&
      forall i, j :: 0 <= i < j < numCfs ==> dates[i] < dates[j]
  {
    if ValidSchedule(dates, numCfs) {
      assert PeriodStart(dates, 0) < dates[0];
      forall i, j | 0 <= i < j < numCfs
        ensures dates[i] < dates[j]
      {
        ValidScheduleOrdered(dates, numCfs, i, j);
      }
    }
    if 1 <= numCfs <= |dates| && dates[0] > 0.0 &&
       forall i, j :: 0 <= i < j < numCfs ==> dates[i] < dates[j]
    {
      forall k | 0 <= k < numCfs
        ensures PeriodStart(dates, k) < dates[k]
      {
        if k > 0 {
          assert dates[k - 1] < dates[k];
        }
      }
    }
  }

  // ---------------------------------------------------------------------
  // Solver exits, tagged and as the source's sentinels
  // ---------------------------------------------------------------------

  /** How an entry point reports each solver exit. */
  function ToSolution(e: Exit): (s: Solution)
    ensures !s.InvalidSchedule?
    ensures s.Converged? <==> e.Root?
    ensures s.Converged? ==> s.value == e.x
    ensures s.Diverged? <==> e.Flat?
  {
    match e
    case Root(x) => Converged(x)
    case Flat => Diverged
    case Exhausted => NotConverged
  }

  /** The number `_backsolve_cf` / `_backsolve_irr` return for an exit. */
  function SentinelOf(e: Exit): (r: real)
    ensures e.Root? ==> r == e.x
    ensures e.Flat? ==> r == DivergedSentinel
    ensures e.Exhausted? ==> r == NotConvergedSentinel
  {
    match e
    case Root(x) => x
    case Flat => DivergedSentinel
    case Exhausted => NotConvergedSentinel
  }

  /** How the entry points read the number returned by the solver. */
  function FromSentinel(r: real): (s: Solution)
    ensures s.Diverged? <==> r == DivergedSentinel
    ensures s.NotConverged? <==> r == NotConvergedSentinel
    ensures s.Converged? <==> r != DivergedSentinel && r != NotConvergedSentinel
    ensures s.Converged? ==> s.value == r
  {
    if r == DivergedSentinel then Diverged
    else if r == NotConvergedSentinel then NotConverged
    else Converged(r)
  }

  /** Going through the sentinels gives the tagged report, as long as the
      root itself is not one of the two sentinel values. */
  lemma SentinelRoundTrip(e: Exit)
    requires e.Root? ==> e.x != DivergedSentinel && e.x != NotConvergedSentinel
    ensures FromSentinel(SentinelOf(e)) == ToSolution(e)
  {
  }

  // ---------------------------------------------------------------------
  // The two solvers
  // ---------------------------------------------------------------------

  /** The residual `target_px - _compute_pv(..., spread)`. */
  function SpreadResidual(cfs: seq<real>, dates: seq<real>, libor: seq<real>, numCfs: int, targetPx: real,
                          isClean: bool, accruedInterest: real, yearConvention: real): real -> real
    requires numCfs <= |cfs| && numCfs <= |dates| && numCfs <= |libor|
  {
    spread => targetPx - SpreadPv(cfs, dates, libor, numCfs, isClean, accruedInterest, yearConvention, spread)
  }

  /** The residual `0 - _compute_pv_for_irr(..., irr)`. */
  function IrrResidual(pow: (real, real) -> real, cfs: seq<real>, dates: seq<real>, numCfs: int,
                       isClean: bool, accruedInterest: real): real -> real
    requires numCfs <= |cfs| && numCfs <= |dates|
  {
    irr => 0.0 - IrrPv(pow, cfs, dates, numCfs, isClean, accruedInterest, irr)
  }

  /** `_backsolve_cf`: the spread at which the chained present value is
      within `res` of `targetPx`, found by the secant loop. */
  method SecantSpread(cfs: array<real>, dates: array<real>, libor: array<real>, numCfs: int, targetPx: real,
                      res: real, maxTries: int, isClean: bool, accruedInterest: real, yearConvention: real)
    returns (exit: Exit)
    requires numCfs <= cfs.Length && numCfs <= dates.Length && numCfs <= libor.Length
    ensures exit == Outcome(SpreadResidual(cfs[..], dates[..], libor[..], numCfs, targetPx,
                                           isClean, accruedInterest, yearConvention), res, maxTries).exit
    ensures exit.Root? ==>
      Abs(targetPx - SpreadPv(cfs[..], dates[..], libor[..], numCfs, isClean, accruedInterest, yearConvention, exit.x)) <= res
    ensures maxTries <= 0 ==> exit == Exhausted
  {
    var residual := SpreadResidual(cfs[..], dates[..], libor[..], numCfs, targetPx, isClean, accruedInterest, yearConvention);
    var trials;
    exit, trials := Solve(residual, res, maxTries);
  }

  /** `_backsolve_irr`: the flat annual rate at which the present value is
      within `res` of 0, found by the secant loop. */
  method SecantIrr(pow: (real, real) -> real, cfs: array<real>, dates: array<real>, numCfs: int,
                   res: real, maxTries: int, isClean: bool, accruedInterest: real)
    returns (exit: Exit)
    requires numCfs <= cfs.Length && numCfs <= dates.Length
    ensures exit == Outcome(IrrResidual(pow, cfs[..], dates[..], numCfs, isClean, accruedInterest), res, maxTries).exit
    ensures exit.Root? ==> Abs(IrrPv(pow, cfs[..], dates[..], numCfs, isClean, accruedInterest, exit.x)) <= res
    ensures maxTries <= 0 ==> exit == Exhausted
  {
    var residual := IrrResidual(pow, cfs[..], dates[..], numCfs, isClean, accruedInterest);
    var trials;
    exit, trials := Solve(residual, res, maxTries);
  }

  /** A single cash flow is worth its face amount at both seeds (given
      `pow(b, 0) == 1`), so the flat-rate residual is the same at both and
      the solver reports divergence whenever that amount is above tolerance. */
  lemma SingleCashFlowIrrDiverges(pow: (real, real) -> real, c: real, d: real, isClean: bool, accruedInterest: real,
                                  res: real, maxTries: int)
    requires pow(1.0 + FirstSeed, 0.0) == 1.0 && pow(1.0 + (FirstSeed + SeedStep), 0.0) == 1.0
    requires Abs(c - (if isClean then accruedInterest else 0.0)) > res && maxTries > 0
    ensures Outcome(IrrResidual(pow, [c], [d], 1, isClean, accruedInterest), res, maxTries).exit == Flat
  {
    IrrFirstFactor(pow, [c], [d], isClean, accruedInterest, FirstSeed);
    IrrFirstFactor(pow, [c], [d], isClean, accruedInterest, FirstSeed + SeedStep);
    SameSeedResidualsDiverge(IrrResidual(pow, [c], [d], 1, isClean, accruedInterest), res, maxTries);
  }

  /** Zero cash flows are worth nothing at any spread. */
  lemma {:induction false} ZeroCashFlowsSum(cfs: seq<real>, dates: seq<real>, libor: seq<real>,
                                            yearConvention: real, spread: real, t: nat)
    requires t <= |cfs| && t <= |dates| && t <= |libor|
    requires forall k :: 0 <= k < t ==> cfs[k] == 0.0
    ensures DiscountedSum(cfs, dates, libor, yearConvention, spread, t) == 0.0
  {
    if t > 0 {
      ZeroCashFlowsSum(cfs, dates, libor, yearConvention, spread, t - 1);
    }
  }

  /** With every cash flow zero the spread residual is the constant
      `targetPx + accrued interest` (accrued interest only when clean), so
      the solver reports divergence whenever that is above tolerance. */
  lemma ZeroCashFlowsDiverge(cfs: seq<real>, dates: seq<real>, libor: seq<real>, numCfs: int, targetPx: real,
                             isClean: bool, accruedInterest: real, yearConvention: real, res: real, maxTries: int)
    requires 0 < numCfs <= |cfs| && numCfs <= |dates| && numCfs <= |libor|
    requires forall k :: 0 <= k < numCfs ==> cfs[k] == 0.0
    requires Abs(targetPx + (if isClean then accruedInterest else 0.0)) > res && maxTries > 0
    ensures Outcome(SpreadResidual(cfs, dates, libor, numCfs, targetPx, isClean, accruedInterest, yearConvention),
                    res, maxTries).exit == Flat
  {
    ZeroCashFlowsSum(cfs, dates, libor, yearConvention, FirstSeed, numCfs);
    ZeroCashFlowsSum(cfs, dates, libor, yearConvention, FirstSeed + SeedStep, numCfs);
    SameSeedResidualsDiverge(SpreadResidual(cfs, dates, libor, numCfs, targetPx, isClean, accruedInterest, yearConvention),
                             res, maxTries);
  }

  // ---------------------------------------------------------------------
  // The two entry points
  // ---------------------------------------------------------------------

  /** `backsolve_cf`: refuse an empty schedule or dates that do not increase
      from above 0, copy the first `numCfs` entries into working arrays,
      solve for the spread and report the exit. */
  method BacksolveCf(cfs: seq<real>, dates: seq<real>, libor: seq<real>, numCfs: int, targetPx: real,
                     res: real, maxTries: int, isClean: bool, accruedInterest: real, yearConvention: real)
    returns (s: Solution)
    requires numCfs <= |cfs| && numCfs <= |dates| && numCfs <= |libor|
    ensures s.InvalidSchedule? <==> !ValidSchedule(dates, numCfs)
    ensures s == InvalidSchedule(NoCashFlows) <==> numCfs < 1
    ensures ValidSchedule(dates, numCfs) ==>
      s == ToSolution(Outcome(SpreadResidual(cfs[..numCfs], dates[..numCfs], libor[..numCfs], numCfs, targetPx,
                                             isClean, accruedInterest, yearConvention), res, maxTries).exit)
    ensures s.Converged? ==>
      Abs(targetPx - SpreadPv(cfs, dates, libor, numCfs, isClean, accruedInterest, yearConvention, s.value)) <= res
  {
    if numCfs < 1 {
      return InvalidSchedule(NoCashFlows);
    }
    var cCfs := new real[numCfs];
    var cDates := new real[numCfs];
    var cLibor := new real[numCfs];
    var prevDate := 0.0;
    var i := 0;
    while i < numCfs
      invariant 0 <= i <= numCfs
      invariant cCfs[..i] == cfs[..i] && cDates[..i] == dates[..i] && cLibor[..i] == libor[..i]
      invariant prevDate == if i == 0 then 0.0 else dates[i - 1]
      invariant forall k :: 0 <= k < i ==> PeriodStart(dates, k) < dates[k]
    {
      cCfs[i] := cfs[i];
      cDates[i] := dates[i];
      if cDates[i] <= prevDate {
        return InvalidSchedule(DatesNotIncreasing);
      }
      prevDate := cDates[i];
      cLibor[i] := libor[i];
      i := i + 1;
    }
    assert cCfs[..] == cfs[..numCfs] && cDates[..] == dates[..numCfs] && cLibor[..] == libor[..numCfs];
    var exit := SecantSpread(cCfs, cDates, cLibor, numCfs, targetPx, res, maxTries, isClean, accruedInterest, yearConvention);
    if exit.Root? {
      PrefixSpreadPv(cfs, dates, libor, numCfs, isClean, accruedInterest, yearConvention, exit.x);
    }
    s := ToSolution(exit);
  }

  /** The spread engine reads only the first `numCfs` entries. */
  lemma PrefixSpreadPv(cfs: seq<real>, dates: seq<real>, libor: seq<real>, numCfs: int,
                       isClean: bool, accruedInterest: real, yearConvention: real, spread: real)
    requires 0 <= numCfs <= |cfs| && numCfs <= |dates| && numCfs <= |libor|
    ensures SpreadPv(cfs[..numCfs], dates[..numCfs], libor[..numCfs], numCfs, isClean, accruedInterest, yearConvention, spread)
         == SpreadPv(cfs, dates, libor, numCfs, isClean, accruedInterest, yearConvention, spread)
  {
    PrefixDiscountedSum(cfs, dates, libor, yearConvention, spread, numCfs, numCfs);
  }

  lemma {:induction false} PrefixDiscountedSum(cfs: seq<real>, dates: seq<real>, libor: seq<real>,
                                               yearConvention: real, spread: real, n: nat, t: nat)
    requires t <= n <= |cfs| && n <= |dates| && n <= |libor|
    ensures ChainedDiscount(dates[..n], libor[..n], yearConvention, spread, t)
         == ChainedDiscount(dates, libor, yearConvention, spread, t)
    ensures DiscountedSum(cfs[..n], dates[..n], libor[..n], yearConvention, spread, t)
         == DiscountedSum(cfs, dates, libor, yearConvention, spread, t)
  {
    if t > 0 {
      PrefixDiscountedSum(cfs, dates, libor, yearConvention, spread, n, t - 1);
      assert PeriodFactor(dates[..n], libor[..n], yearConvention, spread, t - 1)
          == PeriodFactor(dates, libor, yearConvention, spread, t - 1);
    }
  }

  /** `backsolve_irr`: the same checks and copies without a reference curve,
      then solve for the flat annual rate that brings the value to 0. */
  method BacksolveIrr(pow: (real, real) -> real, cfs: seq<real>, dates: seq<real>, numCfs: int,
                      res: real, maxTries: int, isClean: bool, accruedInterest: real)
    returns (s: Solution)
    requires numCfs <= |cfs| && numCfs <= |dates|
    ensures s.InvalidSchedule? <==> !ValidSchedule(dates, numCfs)
    ensures s == InvalidSchedule(NoCashFlows) <==> numCfs < 1
    ensures ValidSchedule(dates, numCfs) ==>
      s == ToSolution(Outcome(IrrResidual(pow, cfs[..numCfs], dates[..numCfs], numCfs, isClean, accruedInterest),
                              res, maxTries).exit)
    ensures s.Converged? ==> Abs(IrrPv(pow, cfs, dates, numCfs, isClean, accruedInterest, s.value)) <= res
  {
    if numCfs < 1 {
      return InvalidSchedule(NoCashFlows);
    }
    var cCfs := new real[numCfs];
    var cDates := new real[numCfs];
    var prevDate := 0.0;
    var i := 0;
    while i < numCfs
      invariant 0 <= i <= numCfs
      invariant cCfs[..i] == cfs[..i] && cDates[..i] == dates[..i]
      invariant prevDate == if i == 0 then 0.0 else dates[i - 1]
      invariant forall k :: 0 <= k < i ==> PeriodStart(dates, k) < dates[k]
    {
      cCfs[i] := cfs[i];
      cDates[i] := dates[i];
      if cDates[i] <= prevDate {
        return InvalidSchedule(DatesNotIncreasing);
      }
      prevDate := cDates[i];
      i := i + 1;
    }
    assert cCfs[..] == cfs[..numCfs] && cDates[..] == dates[..numCfs];
    var exit := SecantIrr(pow, cCfs, cDates, numCfs, res, maxTries, isClean, accruedInterest);
    if exit.Root? {
      PrefixIrrPv(pow, cfs, dates, numCfs, isClean, accruedInterest, exit.x);
    }
    s := ToSolution(exit);
  }

  /** The flat-rate engine reads only the first `numCfs` entries. */
  lemma PrefixIrrPv(pow: (real, real) -> real, cfs: seq<real>, dates: seq<real>, numCfs: int,
                    isClean: bool, accruedInterest: real, irr: real)
    requires 0 <= numCfs <= |cfs| && numCfs <= |dates|
    ensures IrrPv(pow, cfs[..numCfs], dates[..numCfs], numCfs, isClean, accruedInterest, irr)
         == IrrPv(pow, cfs, dates, numCfs, isClean, accruedInterest, irr)
  {
    PrefixIrrSum(pow, cfs, dates, irr, numCfs, numCfs);
  }
}
