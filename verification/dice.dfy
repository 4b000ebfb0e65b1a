/**
  The random draws a garden world is built from, lifted out as inputs.

  `n_d(k)` (the sum of `k` six-sided dice) becomes an integer total in
  `k..6k`, and Ruby's `rand` becomes a fraction in `[0, 1)`. A `Tape` holds
  every draw the constructor makes, in the order it makes them.
 */
module Dice {

  /** `t` is a possible total of `count` six-sided dice. */
  predicate IsDiceTotal(count: nat, t: int) {
    count <= t <= 6 * count
  }

  /** `r` is a possible result of Ruby's `rand` with no argument. */
  predicate IsFraction(r: real) {
    0.0 <= r < 1.0
  }

  /** The draws of one world, in the constructor's order. */
  datatype Tape = Tape(
    sizeRoll: int,         // n_d(3) in roll_size
    massRoll: int,         // n_d(3) for the atmospheric mass
    massFrac: real,        // rand   for the atmospheric mass
    marginalRoll: int,     // n_d(3) for the marginal-atmosphere test
    hydroRoll: int,        // n_d(1) in roll_hydrographics
    hydroFrac: real,       // rand   in roll_hydrographics
    tempRoll: int,         // n_d(3) in roll_surface_temp
    tempFrac: real,        // rand   in roll_surface_temp
    absorptionFrac: real,  // rand   in roll_absorption (every branch draws one)
    blackbodyFrac: real,   // rand   in roll_blackbody
    densityRoll: int,      // n_d(3) in roll_density
    densityFrac: real,     // rand   in roll_density (every branch draws one)
    gravityRoll: int,      // n_d(2) in roll_gravity
    gravityFrac: real,     // rand   in roll_gravity
    resourcesRoll: int     // n_d(3) in roll_resources
  )

  /** Every draw on the tape lies in the range its source can produce. */
  predicate ValidTape(t: Tape) {
    && IsDiceTotal(3, t.sizeRoll)
    && IsDiceTotal(3, t.massRoll) && IsFraction(t.massFrac)
    && IsDiceTotal(3, t.marginalRoll)
    && IsDiceTotal(1, t.hydroRoll) && IsFraction(t.hydroFrac)
    && IsDiceTotal(3, t.tempRoll) && IsFraction(t.tempFrac)
    && IsFraction(t.absorptionFrac)
    && IsFraction(t.blackbodyFrac)
    && IsDiceTotal(3, t.densityRoll) && IsFraction(t.densityFrac)
    && IsDiceTotal(2, t.gravityRoll) && IsFraction(t.gravityFrac)
    && IsDiceTotal(3, t.resourcesRoll)
  }
}
