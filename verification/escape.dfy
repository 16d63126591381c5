/** The escape-time evaluator shared by the Mandelbrot and the Julia renderers:
    iterate z := z*z + c while |z| <= 2 and fewer than maxIterations steps were
    taken, then turn the count into a grey level. */
module Escape {
  import opened Plane

  /** One step of the recurrence z := z*z + c. */
  function Step(z: Complex, c: Complex): Complex
  {
    Add(Mul(z, z), c)
  }

  /** The value of z after n steps from z0. */
  function Orbit(z0: Complex, c: Complex, n: nat): Complex
  {
    if n == 0 then z0 else Step(Orbit(z0, c, n - 1), c)
  }

  /** The number of steps the loop may take at most: maxIterations, or none
      when it is zero or negative. */
  function Cap(maxIterations: int): nat
  {
    if maxIterations > 0 then maxIterations else 0
  }

  /** The escape count as a recursive specification: how many steps the loop
      takes from z with `budget` steps left. */
  function EscapeCount(z: Complex, c: Complex, budget: int): (n: nat)
    ensures n <= Cap(budget)
    decreases Cap(budget)
  {
    if WithinBailout(z) && budget > 0 then 1 + EscapeCount(Step(z, c), c, budget - 1)
    else 0
  }

  lemma {:induction false} OrbitShift(z: Complex, c: Complex, n: nat)
    ensures Orbit(Step(z, c), c, n) == Orbit(z, c, n + 1)
  {
    if n > 0 {
      OrbitShift(z, c, n - 1);
    }
  }

  /** The count is the first step at which the orbit leaves the disk of radius
      2, capped at the budget: every earlier point is inside, and stopping short
      of the budget means the point reached is outside. */
  lemma {:induction false} EscapeCountIsFirstExit(z: Complex, c: Complex, budget: int)
    ensures forall k :: 0 <= k < EscapeCount(z, c, budget) ==> WithinBailout(Orbit(z, c, k))
    ensures EscapeCount(z, c, budget) < budget ==> !WithinBailout(Orbit(z, c, EscapeCount(z, c, budget)))
    decreases Cap(budget)
  {
    var n := EscapeCount(z, c, budget);
    if n > 0 {
      var z' := Step(z, c);
      EscapeCountIsFirstExit(z', c, budget - 1);
      forall k | 0 <= k < n
        ensures WithinBailout(Orbit(z, c, k))
      {
        if k > 0 {
          OrbitShift(z, c, k - 1);
        }
      }
      OrbitShift(z, c, n - 1);
    }
  }

  /** The two properties of EscapeCountIsFirstExit determine the count: any n
      within the cap that has them is the count. */
  lemma EscapeCountIsUnique(z: Complex, c: Complex, budget: int, n: nat)
    requires n <= Cap(budget)
    requires forall k :: 0 <= k < n ==> WithinBailout(Orbit(z, c, k))
    requires n < budget ==> !WithinBailout(Orbit(z, c, n))
    ensures n == EscapeCount(z, c, budget)
  {
    EscapeCountIsFirstExit(z, c, budget);
  }

  /** The escape loop of draw_mandelbrot and draw_julia. It returns the final
      count and the final value of z. */
  method Iterate(z0: Complex, c: Complex, maxIterations: int) returns (iteration: nat, z: Complex)
    ensures iteration == EscapeCount(z0, c, maxIterations)
    ensures iteration <= Cap(maxIterations)
    ensures z == Orbit(z0, c, iteration)
    ensures forall k :: 0 <= k < iteration ==> WithinBailout(Orbit(z0, c, k))
    ensures iteration < maxIterations ==> !WithinBailout(z)
    ensures WithinBailout(z) ==> iteration == Cap(maxIterations)
  {
    z := z0;
    iteration := 0;
    while WithinBailout(z) && iteration < maxIterations
      invariant iteration <= Cap(maxIterations)
      invariant z == Orbit(z0, c, iteration)
      invariant forall k :: 0 <= k < iteration ==> WithinBailout(Orbit(z0, c, k))
      invariant iteration + EscapeCount(z, c, maxIterations - iteration) == EscapeCount(z0, c, maxIterations)
      decreases maxIterations - iteration
    {
      z := Step(z, c);
      iteration := iteration + 1;
    }
  }

  /** The grey level `iteration / max_iterations`. A zero maxIterations is a
      division by zero in the source (ZeroDivisionError in Python, NaN in C++). */
  function Color(iteration: nat, maxIterations: int): (r: real)
    requires maxIterations != 0
    ensures iteration <= Cap(maxIterations) ==> 0.0 <= r <= 1.0
    ensures r == 0.0 <==> iteration == 0
    ensures r == 1.0 <==> iteration == maxIterations
  {
    var m := maxIterations as real;
    var q := iteration as real / m;
    assert q * m == iteration as real;
    assert (q - 1.0) * m == iteration as real - m;
    q
  }

  /** Brightness never decreases with the count. */
  lemma ColorIsMonotone(i: nat, j: nat, maxIterations: int)
    requires 0 < maxIterations && i <= j
    ensures Color(i, maxIterations) <= Color(j, maxIterations)
  {
    var m := maxIterations as real;
    assert Color(j, maxIterations) - Color(i, maxIterations) == (j - i) as real / m;
  }

  /** Mandelbrot mode starts at z = 0, which is inside the disk, so with at
      least one step allowed the count is at least one. */
  lemma MandelbrotCountsAtLeastOne(c: Complex, maxIterations: int)
    requires maxIterations >= 1
    ensures EscapeCount(Zero, c, maxIterations) >= 1
  {
  }

  /** A fixed point of the recurrence that lies inside the disk never
      escapes: the count is the whole budget. */
  lemma {:induction false} FixedPointNeverEscapes(z: Complex, c: Complex, budget: int)
    requires Step(z, c) == z && WithinBailout(z)
    ensures EscapeCount(z, c, budget) == Cap(budget)
    decreases Cap(budget)
  {
    if budget > 0 {
      FixedPointNeverEscapes(z, c, budget - 1);
    }
  }

  /** c = 0 keeps z at 0 for ever in Mandelbrot mode: the count is the whole
      budget and the pixel is drawn at full brightness. */
  lemma OriginNeverEscapes(maxIterations: int)
    ensures EscapeCount(Zero, Zero, maxIterations) == Cap(maxIterations)
    ensures maxIterations > 0 ==> Color(EscapeCount(Zero, Zero, maxIterations), maxIterations) == 1.0
  {
    OriginIsFixed();
    FixedPointNeverEscapes(Zero, Zero, maxIterations);
  }

  lemma OriginIsFixed()
    ensures Step(Zero, Zero) == Zero && WithinBailout(Zero)
  {
    assert Mul(Zero, Zero) == Zero;
    assert NormSq(Zero) == 0.0;
  }

  /** A point inside the disk whose next point is outside it stops the loop
      after exactly one step, whatever the budget beyond the first. */
  lemma EscapesAfterOneStep(z: Complex, c: Complex, budget: int)
    requires WithinBailout(z) && !WithinBailout(Step(z, c)) && budget >= 1
    ensures EscapeCount(z, c, budget) == 1
  {
    assert EscapeCount(Step(z, c), c, budget - 1) == 0;
  }

  /** The first Mandelbrot step takes z from 0 to c. */
  lemma StepFromOrigin(c: Complex)
    ensures Step(Zero, c) == c
  {
    assert Mul(Zero, Zero) == Zero;
  }

  /** A c outside the disk of radius 2 escapes after exactly one step in
      Mandelbrot mode, since the first step takes z from 0 to c. */
  lemma MandelbrotFarPointEscapesAtOnce(c: Complex, maxIterations: int)
    requires !WithinBailout(c) && maxIterations >= 1
    ensures EscapeCount(Zero, c, maxIterations) == 1
  {
    OriginIsFixed();
    StepFromOrigin(c);
    EscapesAfterOneStep(Zero, c, maxIterations);
  }

  /** In Julia mode a start point outside the disk is never iterated: the
      count is zero and the pixel is black. */
  lemma JuliaOutsidePointIsBlack(point: Complex, c: Complex, maxIterations: int)
    requires !WithinBailout(point) && maxIterations != 0
    ensures EscapeCount(point, c, maxIterations) == 0
    ensures Color(EscapeCount(point, c, maxIterations), maxIterations) == 0.0
  {
  }
}
