/** The secant root-finder shared by `_backsolve_cf` and `_backsolve_irr`
    (ext/c_helper/backsolve_cf.c), stated once over an arbitrary residual
    function. The solver's state is the pair of the last two iterates, their
    residuals and the number of secant updates made so far. */
module Secant {

  /** The `ABS` macro. */
  function Abs(x: real): (r: real)
    ensures r >= 0.0 && (r == x || r == -x)
  {
    if x < 0.0 then -x else x
  }

  /** The first iterate (6%) and the offset of the second one from it. */
  const FirstSeed: real := 0.06
  const SeedStep: real := 0.0025

  /** x_{n-1}, x_n, f_{n-1}, f_n and the iteration counter. */
  datatype State = State(xPrev: real, x: real, fPrev: real, fx: real, trials: int)

  /** How the solver leaves: a root within tolerance (the source returns the
      iterate), a flat residual (the source returns -999.0) or an exhausted
      budget (the source returns -998.0). */
  datatype Exit = Root(x: real) | Flat | Exhausted

  /** The exit together with the state the loop was in when it stopped. */
  datatype Final = Final(exit: Exit, last: State)

  /** The two residuals in `s` are those of its two iterates. */
  predicate Tracks(f: real -> real, s: State)
  {
    s.fPrev == f(s.xPrev) && s.fx == f(s.x)
  }

  /** The state before the loop: fixed seeds, both residuals evaluated, no trials. */
  function Start(f: real -> real): (s: State)
    ensures s.xPrev == 0.06 && s.x == 0.0625 && s.trials == 0
    ensures Tracks(f, s)
  {
    State(FirstSeed, FirstSeed + SeedStep, f(FirstSeed), f(FirstSeed + SeedStep), 0)
  }

  /** The loop guard: residual above tolerance and budget left. */
  predicate Continues(res: real, maxTries: int, s: State)
  {
    Abs(s.fx) > res && s.trials < maxTries
  }

  /** The secant update: the next iterate is where the chord through
      (xPrev, fPrev) and (x, fx) crosses zero. It is only taken once the
      residuals differ, so the division is by a non-zero number. */
  function SecantUpdate(xPrev: real, x: real, fPrev: real, fx: real): (next: real)
    requires fx != fPrev
    ensures (next - x) * (fx - fPrev) == -fx * (x - xPrev)
  {
    var q := fx * (x - xPrev) / (fx - fPrev);
    assert q * (fx - fPrev) == fx * (x - xPrev);
    x - q
  }

  /** One pass of the loop body: update, shift the pairs, evaluate, count. */
  function Step(f: real -> real, s: State): (t: State)
    requires s.fx != s.fPrev
    ensures t.x == SecantUpdate(s.xPrev, s.x, s.fPrev, s.fx)
    ensures (t.x - s.x) * (s.fx - s.fPrev) == -s.fx * (s.x - s.xPrev)
    ensures t.xPrev == s.x && t.fPrev == s.fx && t.trials == s.trials + 1
    ensures t.fx == f(t.x)
  {
    var next := SecantUpdate(s.xPrev, s.x, s.fPrev, s.fx);
    State(s.x, next, s.fx, f(next), s.trials + 1)
  }

  /** The loop of the source, from state `s` to its exit. The counter never
      goes down, and a root is reported only at the last iterate and only
      when its residual is within tolerance with budget left. */
  function Run(f: real -> real, res: real, maxTries: int, s: State): (r: Final)
    ensures s.trials <= r.last.trials
    ensures r.exit.Root? ==> r.exit.x == r.last.x && Abs(r.last.fx) <= res && r.last.trials < maxTries
    ensures r.exit.Flat? ==> r.last.fx == r.last.fPrev && Abs(r.last.fx) > res
    decreases if s.trials < maxTries then maxTries - s.trials else 0
  {
    if Continues(res, maxTries, s) then
      if s.fx == s.fPrev then Final(Flat, s)
      else Run(f, res, maxTries, Step(f, s))
    else if s.trials >= maxTries then Final(Exhausted, s)
    else Final(Root(s.x), s)
  }

  /** A whole solve: the loop run from the seeded start state. */
  function Outcome(f: real -> real, res: real, maxTries: int): Final
  {
    Run(f, res, maxTries, Start(f))
  }

  function Budget(maxTries: int): nat
  {
    if maxTries > 0 then maxTries else 0
  }

  /** What any run guarantees: the counter only grows and never passes the
      budget, and the exit is classified exactly by the last state. */
  lemma {:induction false} RunExit(f: real -> real, res: real, maxTries: int, s: State)
    requires s.fx == f(s.x)
    ensures var r := Run(f, res, maxTries, s);
      && s.trials <= r.last.trials
      && (s.trials < maxTries ==> r.last.trials <= maxTries)
      && (s.trials >= maxTries ==> r.last == s)
      && r.last.fx == f(r.last.x)
      && (r.exit.Flat? <==> Continues(res, maxTries, r.last) && r.last.fx == r.last.fPrev)
      && (r.exit.Exhausted? <==> r.last.trials >= maxTries)
      && (r.exit.Root? <==> Abs(r.last.fx) <= res && r.last.trials < maxTries)
      && (r.exit.Root? ==> r.exit.x == r.last.x && Abs(f(r.exit.x)) <= res)
    decreases if s.trials < maxTries then maxTries - s.trials else 0
  {
    if Continues(res, maxTries, s) && s.fx != s.fPrev {
      RunExit(f, res, maxTries, Step(f, s));
    }
  }

  /** The same facts for a whole solve, with the counter starting at zero:
      at most `max(maxTries, 0)` updates, a root only within tolerance and
      with budget left, a flat exit only when the two last residuals are
      equal and above tolerance with budget left, and an exhausted budget
      whenever the counter reached `maxTries`. */
  lemma OutcomeExit(f: real -> real, res: real, maxTries: int)
    ensures var r := Outcome(f, res, maxTries);
      && 0 <= r.last.trials <= Budget(maxTries)
      && (r.exit.Root? ==> Abs(f(r.exit.x)) <= res && r.last.trials < maxTries)
      && (r.exit.Flat? <==>
            r.last.fx == r.last.fPrev && Abs(r.last.fx) > res && r.last.trials < maxTries)
      && (r.exit.Exhausted? <==> r.last.trials >= maxTries)
  {
    RunExit(f, res, maxTries, Start(f));
  }

  /** With no budget the seeds are never accepted, even when they already
      meet the tolerance. */
  lemma NoBudgetNoRoot(f: real -> real, res: real, maxTries: int)
    requires maxTries <= 0
    ensures Outcome(f, res, maxTries) == Final(Exhausted, Start(f))
  {
  }

  /** Meeting the tolerance on the update that uses up the budget is still
      reported as an exhausted budget: the counter is tested after the loop,
      whatever the residual. */
  lemma ToleranceOnLastTrial(f: real -> real, res: real, maxTries: int, s: State)
    requires Continues(res, maxTries, s) && s.fx != s.fPrev
    requires s.trials == maxTries - 1
    requires Abs(Step(f, s).fx) <= res
    ensures Run(f, res, maxTries, s) == Final(Exhausted, Step(f, s))
  {
  }

  /** A residual that takes the same value at both seeds, above tolerance,
      is reported flat before any update: the source's divergence exit. */
  lemma SameSeedResidualsDiverge(f: real -> real, res: real, maxTries: int)
    requires f(FirstSeed) == f(FirstSeed + SeedStep)
    requires Abs(f(FirstSeed)) > res && maxTries > 0
    ensures Outcome(f, res, maxTries) == Final(Flat, Start(f))
  {
  }

  /** In particular a constant residual never converges. */
  lemma ConstantResidualDiverges(c: real, res: real, maxTries: int)
    requires Abs(c) > res && maxTries > 0
    ensures Outcome((x: real) => c, res, maxTries).exit == Flat
  {
  }

  /** Unfolding the loop once past a secant update. */
  lemma RunStep(f: real -> real, res: real, maxTries: int, s: State)
    requires Continues(res, maxTries, s) && s.fx != s.fPrev
    ensures Run(f, res, maxTries, s) == Run(f, res, maxTries, Step(f, s))
  {
  }

  /** The secant loop of `_backsolve_cf` / `_backsolve_irr`, over residual `f`. */
  method Solve(f: real -> real, res: real, maxTries: int) returns (exit: Exit, trials: int)
    ensures exit == Outcome(f, res, maxTries).exit
    ensures trials == Outcome(f, res, maxTries).last.trials
    ensures 0 <= trials <= Budget(maxTries)
    ensures exit.Root? ==> Abs(f(exit.x)) <= res && trials < maxTries
    ensures exit.Flat? ==> trials < maxTries
    ensures exit.Exhausted? <==> trials >= maxTries
  {
    var xPrev := FirstSeed;
    var x := xPrev + SeedStep;
    var fPrev := f(xPrev);
    var fx := f(x);
    trials := 0;
    while Abs(fx) > res && trials < maxTries
      invariant Run(f, res, maxTries, State(xPrev, x, fPrev, fx, trials)) == Outcome(f, res, maxTries)
      decreases maxTries - trials
    {
      ghost var before := State(xPrev, x, fPrev, fx, trials);
      if fx == fPrev {
        OutcomeExit(f, res, maxTries);
        return Flat, trials;
      }
      RunStep(f, res, maxTries, before);
      var xNext := SecantUpdate(xPrev, x, fPrev, fx);
      xPrev := x;
      x := xNext;
      fPrev := fx;
      fx := f(x);
      trials := trials + 1;
    }
    OutcomeExit(f, res, maxTries);
    if trials >= maxTries {
      return Exhausted, trials;
    }
    return Root(x), trials;
  }
}
