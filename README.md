# Backsolve spread / IRR — a Dafny model

This project models the numeric core of the `c_helper` Ruby extension
(`ext/c_helper/backsolve_cf.c`). Given a stream of dated cash flows, the
extension finds either a discount spread over a floating reference (libor)
curve that prices the stream at a target amount (`backsolve_cf`), or the flat
annual rate that brings its present value to zero (`backsolve_irr`). Both are
solved with a secant iteration.

Every C `double` is a Dafny `real`. The model has three modules:

- `PresentValue` (`present_value.dfy`) holds the two discounting engines.
  - `_compute_pv` chains a simple-rate discount period by period: the factor
    is divided by `1 + (libor[t] + spread) * (dates[t] - dates[t-1]) / year_convention`,
    with `dates[-1] = 0`.
  - `_compute_pv_for_irr` discounts each cash flow on its own by
    `pow(1 + irr, (dates[t] - dates[0]) / 365)`.
  - Each engine is a specification function over sequences (`SpreadPv`,
    `IrrPv`). Each is also the source's loop over arrays (`ComputePv`,
    `ComputePvForIrr`), proved equal to its function.
  - Both engines return `-997.0` for an empty schedule. Both subtract the
    accrued interest when the value is clean.
- `Secant` (`secant.dfy`) is the secant loop shared by `_backsolve_cf` and
  `_backsolve_irr`, written once over any residual function `real -> real`.
  - The state is `(x_{n-1}, x_n, f_{n-1}, f_n, trials)`.
  - `Run` is the loop as a recursive function. `Solve` is the loop as a
    `while` statement, proved equal to `Run`.
  - The exit is tagged: `Root(x)`, `Flat` (the source returns `-999.0`) or
    `Exhausted` (the source returns `-998.0`).
- `Backsolve` (`backsolve.dfy`) holds the rest.
  - The two solvers `SecantSpread` and `SecantIrr` instantiate the loop with
    the two engines.
  - The two entry points `BacksolveCf` and `BacksolveIrr` reject an empty
    schedule. They copy the schedule into fresh arrays while checking that
    the dates rise strictly from above 0. Then they solve and report a
    `Solution`: `Converged(value)`, `Diverged`, `NotConverged` or
    `InvalidSchedule(why)`.
  - The sentinel encoding is modelled beside the tagged result
    (`SentinelOf`, `FromSentinel`), with the lemma that says when the two
    agree.

Where the source divides by a number it does not check, the model uses
`PresentValue.Div`, which is total. These divisors are `year_convention`, a
period's growth factor, and the result of `pow`. The source assumes these
are never zero (its comments at lines 13 and 45 say so). The secant update
divides by `f_n - f_{n-1}` with plain real division: the divergence test
before it makes this safe, and the verifier checks that.

Two behaviours of the code are worth stating, and the model keeps both.
First, a run that meets the tolerance on the update that uses up its budget
still reports not-converged: the code tests `trials >= max_tries` after the
loop whatever the residual (lines 108-109 and 151-152).
`Secant.ToleranceOnLastTrial` states this. Second, the entry points never
compare the lengths of the arrays they are given (the TODO at lines 194 and
269); they only read the first `num_cfs` entries of each.

## Model

| member | source | states |
|---|---|---|
| `Secant.Abs` | ext/c_helper/backsolve_cf.c:5 | `ABS(x)` is non-negative and equals `x` or `-x` |
| `Secant.Start` | ext/c_helper/backsolve_cf.c:83-91 | the first two iterates are 0.06 and 0.0625; both residuals are evaluated there; the counter starts at 0 |
| `Secant.SecantUpdate` | ext/c_helper/backsolve_cf.c:98 | the update is defined only when `f_n != f_{n-1}`; the new iterate is where the chord through the last two points crosses zero |
| `Secant.Step` | ext/c_helper/backsolve_cf.c:98-105 | after an update the new iterate is `SecantUpdate` of the old pairs, i.e. the chord's zero; the pairs shift (`x_{n-1} := x_n`, `f_{n-1} := f_n`); the new residual is the residual of the new iterate; the counter grows by one |
| `Secant.Run` | ext/c_helper/backsolve_cf.c:93-111 | the loop from any state: the counter never goes down; a root is the last iterate, with residual within `res` and `trials < max_tries`; a flat exit has its last two residuals equal and above `res` |
| `Secant.RunExit` | ext/c_helper/backsolve_cf.c:93-111 | from any state, the counter only grows and never passes `max_tries` once below it; the exit is Flat exactly when the loop guard holds and the last two residuals are equal; it is Exhausted exactly when the counter reached `max_tries`; it is Root exactly when the residual is within tolerance with budget left, and then the root's residual is within tolerance |
| `Secant.OutcomeExit` | ext/c_helper/backsolve_cf.c:83-111 | a whole solve makes at most `max(max_tries, 0)` updates; a root has residual within `res` and was found with `trials < max_tries`; Flat happens exactly when `f_n == f_{n-1}`, `abs(f_n) > res` and `trials < max_tries`; Exhausted happens exactly when `trials >= max_tries` |
| `Secant.NoBudgetNoRoot` | ext/c_helper/backsolve_cf.c:91-109 | with `max_tries <= 0` the result is Exhausted at the seeds, even when they already meet the tolerance |
| `Secant.ToleranceOnLastTrial` | ext/c_helper/backsolve_cf.c:93-109 | meeting the tolerance on the update that uses up the budget still gives Exhausted |
| `Secant.SameSeedResidualsDiverge` | ext/c_helper/backsolve_cf.c:83-96 | when the residual is the same at both seeds and above `res`, with a positive budget, the loop stops at once with the divergence exit and no update |
| `Secant.ConstantResidualDiverges` | ext/c_helper/backsolve_cf.c:83-96 | a residual that does not depend on the rate, above `res`, gives the divergence exit whenever the budget is positive |
| `Secant.Solve` | ext/c_helper/backsolve_cf.c:83-111 | the loop's exit and final counter are those of `Run` from the seeded start; the counter stays within `[0, max(max_tries, 0)]`; a Root's residual is within `res`; Exhausted holds exactly when `trials >= max_tries` |
| `PresentValue.ChainedIsProduct` | ext/c_helper/backsolve_cf.c:16-26 | the running factor after period t is the product, over periods 0..t, of `1 / (1 + (libor[k] + spread) * (dates[k] - dates[k-1]) / year_convention)` with `dates[-1] = 0` |
| `PresentValue.SpreadPv` | ext/c_helper/backsolve_cf.c:15-35 | `_compute_pv` is -997.0 when `num_cfs <= 0`; otherwise, plus the accrued interest when clean, it is the sum of each cash flow times the product of the reciprocal period factors up to its date |
| `PresentValue.SpreadPvCleanDirty` | ext/c_helper/backsolve_cf.c:19-34 | an empty schedule gives -997.0 whether clean or not; otherwise the clean value is the dirty value minus the accrued interest, and the dirty value does not depend on the accrued interest |
| `PresentValue.SpreadPvAtZeroRate` | ext/c_helper/backsolve_cf.c:21-29 | when every `libor[k] + spread` is zero, the value is the plain sum of the cash flows (less accrued interest if clean) |
| `PresentValue.SpreadPvSingle` | ext/c_helper/backsolve_cf.c:16-31 | a single cash flow is worth `cfs[0] / (1 + (libor[0] + spread) * dates[0] / year_convention)`, less accrued interest if clean |
| `PresentValue.ComputePv` | ext/c_helper/backsolve_cf.c:15-35 | the loop over arrays returns exactly `SpreadPv` of the first `num_cfs` entries, which is -997.0 when `num_cfs <= 0` |
| `PresentValue.IrrFirstFactor` | ext/c_helper/backsolve_cf.c:53-62 | given `pow(b, 0) = 1`, the first cash flow has factor 1, so a single cash flow is worth its amount at every rate (less accrued interest if clean) |
| `PresentValue.IrrPv` | ext/c_helper/backsolve_cf.c:47-68 | `_compute_pv_for_irr` is -997.0 when `num_cfs <= 0`; otherwise, plus the accrued interest when clean, it is the flat-rate discounted sum of the first `num_cfs` entries alone |
| `PresentValue.IrrPvCleanDirty` | ext/c_helper/backsolve_cf.c:52-67 | an empty schedule gives -997.0; otherwise the clean value is the dirty value minus the accrued interest |
| `PresentValue.IrrPvShift` | ext/c_helper/backsolve_cf.c:53-59 | each factor depends only on `dates[t] - dates[0]` (no chaining), so shifting every date by the same amount leaves the value unchanged |
| `PresentValue.ComputePvForIrr` | ext/c_helper/backsolve_cf.c:47-68 | the loop over arrays returns exactly `IrrPv` of the first `num_cfs` entries, which is -997.0 when `num_cfs <= 0` |
| `Backsolve.ValidScheduleOrdered` | ext/c_helper/backsolve_cf.c:196-207 | once every date exceeds its predecessor (0 before the first), any earlier date is positive and below any later one |
| `Backsolve.ValidSchedule` | ext/c_helper/backsolve_cf.c:184-207 | a schedule accepted by the checks has at least one and at most as many cash flows as dates, and a first date above 0 |
| `Backsolve.ValidScheduleIff` | ext/c_helper/backsolve_cf.c:184-207 | a schedule passes the checks exactly when `num_cfs >= 1`, `dates[0] > 0` and dates are strictly increasing |
| `Backsolve.ToSolution` | ext/c_helper/backsolve_cf.c:224-233 | a flat exit is reported as Diverged, a root as Converged with that value, an exhausted budget as NotConverged; never an invalid schedule |
| `Backsolve.SentinelOf` | ext/c_helper/backsolve_cf.c:93-111 | the solver returns the root itself, -999.0 for a flat residual and -998.0 for an exhausted budget |
| `Backsolve.FromSentinel` | ext/c_helper/backsolve_cf.c:224-233 | -999.0 is read as Diverged, -998.0 as NotConverged, and any other number as Converged with that value |
| `Backsolve.SentinelRoundTrip` | ext/c_helper/backsolve_cf.c:295-304 | encoding an exit as the solver's number and decoding it gives the tagged report, unless the root itself equals -999.0 or -998.0 |
| `Backsolve.SecantSpread` | ext/c_helper/backsolve_cf.c:82-112 | `_backsolve_cf` exits as the secant loop does on `target_px - pv(spread)`; a root prices the cash flows within `res` of the target; no budget means Exhausted |
| `Backsolve.SecantIrr` | ext/c_helper/backsolve_cf.c:124-155 | `_backsolve_irr` exits as the secant loop does on `0 - pv_irr(irr)`; a root has present value within `res` of 0; no budget means Exhausted |
| `Backsolve.ZeroCashFlowsDiverge` | ext/c_helper/backsolve_cf.c:82-96 | with every cash flow zero, `_backsolve_cf` sees the constant residual `target_px` plus accrued interest if clean, and diverges whenever that is above `res` with a positive budget |
| `Backsolve.SingleCashFlowIrrDiverges` | ext/c_helper/backsolve_cf.c:124-140 | given `pow(b, 0) = 1`, a single cash flow has the same value at both seeds, so `_backsolve_irr` diverges whenever that value is above `res` with a positive budget |
| `Backsolve.BacksolveCf` | ext/c_helper/backsolve_cf.c:168-234 | `backsolve_cf` fails with InvalidSchedule exactly when the schedule is invalid, and with NoCashFlows exactly when `num_cfs < 1`; otherwise it reports the secant exit on the first `num_cfs` entries; a converged spread prices the cash flows within `res` of the target |
| `Backsolve.BacksolveIrr` | ext/c_helper/backsolve_cf.c:247-305 | `backsolve_irr` does the same validation; a valid schedule gets the secant exit against the flat-rate engine; a converged rate brings the present value within `res` of 0 |

## Left out

- Ruby glue is not modelled. This covers `Check_Type`, `NUM2DBL` and `NUM2LONG`, `rb_ary_entry`, `rb_float_new`, and `Init_c_helper`. The entry points take sequences and integers, and the raised exceptions become the `Solution` datatype.
- BacksolveCf: requires each Ruby array to hold at least `num_cfs` entries, because the source assumes this (line 163). The `TypeError` the runtime raises when it converts a missing entry is not modelled.
- BacksolveIrr: requires at least `num_cfs` entries in each array, for the same reason.
- `malloc`, `free` and the allocation-failure branches (lines 190-192 and 266-267) are not modelled. The working arrays are Dafny allocations, which cannot fail. The same goes for the null checks there, which test the wrong buffer.
- IEEE-754 rounding is not modelled. Nor are infinities and NaN: at a zero divisor, `Div` yields 0 where C would yield an infinity or NaN. Nothing is claimed about bit-exact results.
- `pow` is a parameter of the flat-rate engine. The only fact assumed about it is `pow(b, 0) = 1`, and only in `IrrFirstFactor` and `SingleCashFlowIrrDiverges`.
- Nothing is claimed about whether or how fast the secant method reaches a root.
- The C `long` width of `num_cfs`, `max_tries` and `trials` is not modelled. They are unbounded integers here. The counter never exceeds `max(max_tries, 0)`, so no overflow could arise.
- The sentinel collision is removed. In C, a genuine root equal to -999.0 or -998.0 would be misreported. The model's entry points report the tagged exit instead. `SentinelRoundTrip` names the excluded case.
- SecantIrr: the model's `pow` is a total function on reals, so it never yields NaN. C's `pow` does, for a negative base and a fractional exponent: once an iterate falls below -1, line 57 makes the residual NaN, the guard at line 136 is false, and while budget is left (`trials < max_tries`) line 154 returns that iterate as if converged; on the update that uses up the budget, line 151 returns -998.0 first. For example, cash flows -100 and 10 on days 1 and 200 with `res` 0.01 and `max_tries` 10 move the first update to about -18.1, which is then returned. The promise that a root's present value is within `res` of 0 therefore holds for the model, not for such runs in C.
- BacksolveIrr: for the same reason, a `Converged` result whose rate is below -1 in C need not bring the present value within `res` of 0; the model cannot produce that case.
