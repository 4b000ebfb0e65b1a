/**
  A GURPS garden world: the chain of dice-driven rolls that builds the
  planet record, and the two queries derived from it, atmospheric pressure
  and habitability.

  Every `n_d(k)` and `rand` the constructor performs is read from a `Tape`;
  `Math.sqrt` is passed in as `sqrt`, constrained to be the non-negative
  square root on the non-negative reals.
 */
module GardenWorld {
  import opened RubyCase
  import opened Dice
  import opened RealArith

  datatype Size = Standard | Large

  /** The instance variables the constructor sets, in the order it sets them. */
  datatype World = World(
    size: Size,
    atmosphericMass: real,
    marginal: bool,
    hydrographics: real,
    surfaceTemp: real,
    absorption: real,
    blackbody: real,
    blackbodyTemp: real,
    density: real,
    gravity: real,
    resources: int
  )

  // ---------------------------------------------------------------------------
  // The rolls of the constructor
  // ---------------------------------------------------------------------------

  /** `roll_size`: a 3d6 total of 16 or less is standard, 17 or 18 is large. */
  function RollSize(total: int): (s: Size)
    requires IsDiceTotal(3, total)
    ensures s == Standard <==> 3 <= total <= 16
    ensures s == Large <==> total == 17 || total == 18
  {
    if total < 17 then Standard else Large
  }

  /** Atmospheric mass: 3d6 / 10 - 0.05 plus a tenth of a fraction. */
  function AtmosphericMass(total: int, frac: real): (m: real)
    requires IsDiceTotal(3, total) && IsFraction(frac)
    ensures 0.25 <= m < 1.85
    ensures total as real / 10.0 - 0.05 <= m < total as real / 10.0 + 0.05
  {
    total as real / 10.0 - 0.05 + frac / 10.0
  }

  /** The marginal-atmosphere test: a 3d6 total above 11. */
  function IsMarginal(total: int): (b: bool)
    requires IsDiceTotal(3, total)
    ensures b <==> 12 <= total <= 18
  {
    total > 11
  }

  /** Hydrographics before the large-world bonus and the clamp. */
  function HydrographicsRaw(die: int, frac: real): real {
    die as real * 0.1 + 0.35 + frac / 10.0
  }

  /** `roll_hydrographics`: 1d6 tenths plus 0.35 plus noise, 0.2 more on a large world, at most 1. */
  function RollHydrographics(size: Size, die: int, frac: real): (h: real)
    requires IsDiceTotal(1, die) && IsFraction(frac)
    ensures 0.45 <= h <= 1.0
    ensures size == Large ==> 0.65 <= h
    ensures h <= HydrographicsRaw(die, frac) + (if size == Large then 0.2 else 0.0)
    ensures h == 1.0 || h == HydrographicsRaw(die, frac) + (if size == Large then 0.2 else 0.0)
  {
    var raw := HydrographicsRaw(die, frac);
    Min(if size == Large then raw + 0.2 else raw, 1.0)
  }

  /** `roll_surface_temp`: (3d6 - 3.5 + fraction) * 6 + 250. */
  function RollSurfaceTemp(total: int, frac: real): (t: real)
    requires IsDiceTotal(3, total) && IsFraction(frac)
    ensures 247.0 <= t < 343.0
    ensures (total as real - 3.5) * 6.0 + 250.0 <= t < (total as real - 2.5) * 6.0 + 250.0
  {
    (total as real - 3.5 + frac) * 6.0 + 250.0
  }

  /** The `case @hydrographics` table of `roll_absorption`: inclusive ranges, first match wins. */
  function AbsorptionBase(h: real): (b: real)
    ensures 0.0 <= h <= 0.2 ==> b == 0.9
    ensures 0.2 < h <= 0.5 ==> b == 0.87
    ensures 0.5 < h <= 0.9 ==> b == 0.83
    ensures h < 0.0 || 0.9 < h ==> b == 0.79
  {
    var table := [When(Inclusive(0.0, 0.2), 0.9),
                  When(Inclusive(0.2, 0.5), 0.87),
                  When(Inclusive(0.5, 0.9), 0.83)];
    assert 0.2 < h <= 0.5 ==> IsFirstMatch(table, h, 1);
    assert 0.5 < h <= 0.9 ==> IsFirstMatch(table, h, 2);
    Case(table, h, 0.79)
  }

  /** `roll_absorption`: the bucket's base plus a tenth of a fraction. */
  function RollAbsorption(h: real, frac: real): (a: real)
    requires IsFraction(frac)
    ensures 0.79 <= a < 1.0
    ensures AbsorptionBase(h) <= a < AbsorptionBase(h) + 0.1
  {
    AbsorptionBase(h) + frac / 10.0
  }

  /** `roll_blackbody`: 0.11 plus a tenth of a fraction. */
  function RollBlackbody(frac: real): (b: real)
    requires IsFraction(frac)
    ensures 0.11 <= b < 0.21
  {
    0.11 + frac / 10.0
  }

  /** `blackbody_correction`: absorption * (1 + atmospheric mass * blackbody). */
  function BlackbodyCorrection(absorption: real, mass: real, blackbody: real): real {
    absorption * (1.0 + mass * blackbody)
  }

  /** Over the rolled ranges the correction is positive, so the division by it is defined. */
  lemma CorrectionBounds(absorption: real, mass: real, blackbody: real)
    requires 0.79 <= absorption < 1.0
    requires 0.25 <= mass < 1.85
    requires 0.11 <= blackbody < 0.21
    ensures 0.79 <= BlackbodyCorrection(absorption, mass, blackbody) < 1.3885
  {
    MulStrictUpper(mass, blackbody, 1.85, 0.21);
    var k := 1.0 + mass * blackbody;
    MulLower(absorption, k, 0.79, 1.0);
    MulStrictUpper(absorption, k, 1.0, 1.3885);
  }

  /** Line 16: the surface temperature divided by the blackbody correction. */
  function BlackbodyTemp(surfaceTemp: real, absorption: real, mass: real, blackbody: real): (t: real)
    requires 247.0 <= surfaceTemp
    requires 0.79 <= absorption < 1.0
    requires 0.25 <= mass < 1.85
    requires 0.11 <= blackbody < 0.21
    ensures 177.0 < t
    ensures t * BlackbodyCorrection(absorption, mass, blackbody) == surfaceTemp
  {
    var correction := BlackbodyCorrection(absorption, mass, blackbody);
    CorrectionBounds(absorption, mass, blackbody);
    QuotientLower(surfaceTemp, correction, 1.3885, 177.0);
    surfaceTemp / correction
  }

  /** The `case n_d(3)` table of `roll_density`: inclusive integer ranges, 18 falls to `else`. */
  function DensityBase(total: int): (b: real)
    ensures 3 <= total <= 6 ==> b == 0.75
    ensures 7 <= total <= 10 ==> b == 0.85
    ensures 11 <= total <= 14 ==> b == 0.95
    ensures 15 <= total <= 17 ==> b == 1.05
    ensures total < 3 || 17 < total ==> b == 1.15
  {
    var table := [When(Inclusive(3.0, 6.0), 0.75),
                  When(Inclusive(7.0, 10.0), 0.85),
                  When(Inclusive(11.0, 14.0), 0.95),
                  When(Inclusive(15.0, 17.0), 1.05)];
    var x := total as real;
    assert 7 <= total <= 10 ==> IsFirstMatch(table, x, 1);
    assert 11 <= total <= 14 ==> IsFirstMatch(table, x, 2);
    assert 15 <= total <= 17 ==> IsFirstMatch(table, x, 3);
    Case(table, x, 1.15)
  }

  /** `roll_density`: the bucket's base plus a tenth of a fraction. */
  function RollDensity(total: int, frac: real): (d: real)
    requires IsDiceTotal(3, total) && IsFraction(frac)
    ensures 0.75 <= d < 1.25
    ensures DensityBase(total) <= d < DensityBase(total) + 0.1
  {
    DensityBase(total) + frac / 10.0
  }

  /** The size-dependent linear part of `roll_gravity`, before the square-root factor. */
  function GravityCoefficient(size: Size, total: int, frac: real): (c: real)
    requires IsDiceTotal(2, total) && IsFraction(frac)
    ensures size == Standard ==> 0.02825 <= c < 0.06675
    ensures size == Large ==> 0.0637 <= c < 0.0923
    ensures size == Standard ==> 0.03 + (total as real - 2.5) * 0.0035 <= c < 0.03 + (total as real - 1.5) * 0.0035
    ensures size == Large ==> 0.065 + (total as real - 2.5) * 0.0026 <= c < 0.065 + (total as real - 1.5) * 0.0026
  {
    var roll := total as real - 2.5 + frac;
    if size == Standard then 0.03 + roll * 0.0035 else 0.065 + roll * 0.0026
  }

  /** `sqrt` agrees with `Math.sqrt` on the non-negative reals. */
  ghost predicate IsSquareRoot(sqrt: real -> real) {
    forall x :: 0.0 <= x ==> 0.0 <= sqrt(x) && sqrt(x) * sqrt(x) == x
  }

  /**
    `roll_gravity`: the size-dependent coefficient times the square root of
    blackbody temperature times density. Squaring removes the root: the
    gravity squared is the coefficient squared times that product.
   */
  function RollGravity(size: Size, total: int, frac: real, blackbodyTemp: real, density: real,
                       sqrt: real -> real): (g: real)
    requires IsDiceTotal(2, total) && IsFraction(frac)
    requires 177.0 < blackbodyTemp && 0.75 <= density
    requires IsSquareRoot(sqrt)
    ensures 0.31 <= g
    ensures g * g == GravityCoefficient(size, total, frac) * GravityCoefficient(size, total, frac)
                     * (blackbodyTemp * density)
  {
    var c := GravityCoefficient(size, total, frac);
    var product := blackbodyTemp * density;
    MulLower(blackbodyTemp, density, 177.0, 0.75);
    var factor := sqrt(product);
    assert factor * factor == product;
    RootLower(product, factor, 11.0);
    MulLower(c, factor, 0.02825, 11.0);
    assert (c * factor) * (c * factor) == (c * c) * (factor * factor);
    c * factor
  }

  /** `roll_resources`: the `case n_d(3)` table, 17 and 18 fall to `else`. */
  function RollResources(total: int): (r: int)
    ensures 3 <= total <= 4 ==> r == -2
    ensures 5 <= total <= 7 ==> r == -1
    ensures 8 <= total <= 13 ==> r == 0
    ensures 14 <= total <= 16 ==> r == 1
    ensures total < 3 || 16 < total ==> r == 2
  {
    var table := [When(Inclusive(3.0, 4.0), -2),
                  When(Inclusive(5.0, 7.0), -1),
                  When(Inclusive(8.0, 13.0), 0),
                  When(Inclusive(14.0, 16.0), 1)];
    var x := total as real;
    assert 5 <= total <= 7 ==> IsFirstMatch(table, x, 1);
    assert 8 <= total <= 13 ==> IsFirstMatch(table, x, 2);
    assert 14 <= total <= 16 ==> IsFirstMatch(table, x, 3);
    Case(table, x, 2)
  }

  // ---------------------------------------------------------------------------
  // The constructor
  // ---------------------------------------------------------------------------

  /** The ranges every field of a constructed world lies in. */
  predicate WellFormed(w: World) {
    && 0.25 <= w.atmosphericMass < 1.85
    && 0.45 <= w.hydrographics <= 1.0
    && (w.size == Large ==> 0.65 <= w.hydrographics)
    && 247.0 <= w.surfaceTemp < 343.0
    && 0.79 <= w.absorption < 1.0
    && 0.11 <= w.blackbody < 0.21
    && 177.0 < w.blackbodyTemp
    && 0.75 <= w.density < 1.25
    && 0.31 <= w.gravity
    && -2 <= w.resources <= 2
  }

  /** `initialize`: every roll in order, each reading its draws from the tape. */
  function Generate(tape: Tape, sqrt: real -> real): (w: World)
    requires ValidTape(tape) && IsSquareRoot(sqrt)
    ensures WellFormed(w)
    ensures w.size == Large <==> tape.sizeRoll >= 17
    ensures w.marginal <==> tape.marginalRoll >= 12
  {
    var size := RollSize(tape.sizeRoll);
    var mass := AtmosphericMass(tape.massRoll, tape.massFrac);
    var marginal := IsMarginal(tape.marginalRoll);
    var hydro := RollHydrographics(size, tape.hydroRoll, tape.hydroFrac);
    var temp := RollSurfaceTemp(tape.tempRoll, tape.tempFrac);
    var absorption := RollAbsorption(hydro, tape.absorptionFrac);
    var blackbody := RollBlackbody(tape.blackbodyFrac);
    var bbTemp := BlackbodyTemp(temp, absorption, mass, blackbody);
    var density := RollDensity(tape.densityRoll, tape.densityFrac);
    var gravity := RollGravity(size, tape.gravityRoll, tape.gravityFrac, bbTemp, density, sqrt);
    var resources := RollResources(tape.resourcesRoll);
    World(size, mass, marginal, hydro, temp, absorption, blackbody, bbTemp, density, gravity, resources)
  }

  // ---------------------------------------------------------------------------
  // The derived queries
  // ---------------------------------------------------------------------------

  /** `atmospheric_pressure`: mass times gravity, five times that on a large world. */
  function AtmosphericPressure(w: World): (p: real)
    ensures 0.0 < w.atmosphericMass && 0.0 < w.gravity ==> w.atmosphericMass * w.gravity <= p
    ensures w.atmosphericMass * w.gravity <= 0.0 ==> p <= w.atmosphericMass * w.gravity
  {
    var result := w.atmosphericMass * w.gravity;
    if w.size == Large then result * 5.0 else result
  }

  /**
    The `case atmospheric_pressure` term of `habitability`. Its `else` has
    a range written after it, but that range is evaluated and discarded,
    so every pressure outside the three `when` ranges earns 1 -- pressures
    below 0.01 as well as those above 1.5.
   */
  function PressureTerm(p: real): (n: int)
    ensures 1 <= n <= 3
    ensures 0.01 <= p <= 0.5 ==> n == 1
    ensures 0.5 < p <= 0.8 ==> n == 2
    ensures 0.8 < p <= 1.5 ==> n == 3
    ensures p < 0.01 || 1.5 < p ==> n == 1
  {
    var table := [When(Inclusive(0.01, 0.5), 1),
                  When(Inclusive(0.5, 0.8), 2),
                  When(Inclusive(0.8, 1.5), 3)];
    assert 0.5 < p <= 0.8 ==> IsFirstMatch(table, p, 1);
    assert 0.8 < p <= 1.5 ==> IsFirstMatch(table, p, 2);
    Case(table, p, 1)
  }

  /** The `case @hydrographics` term of `habitability`: half-open ranges, no `else`. */
  function HydrographicsTerm(h: real): (n: int)
    ensures 0 <= n <= 2
    ensures 0.0 <= h < 0.6 ==> n == 1
    ensures 0.6 <= h < 0.9 ==> n == 2
    ensures 0.9 <= h < 1.0 ==> n == 1
    ensures h < 0.0 || 1.0 <= h ==> n == 0
  {
    var table := [When(Exclusive(0.0, 0.6), 1),
                  When(Exclusive(0.6, 0.9), 2),
                  When(Exclusive(0.9, 1.0), 1)];
    assert 0.6 <= h < 0.9 ==> IsFirstMatch(table, h, 1);
    assert 0.9 <= h < 1.0 ==> IsFirstMatch(table, h, 2);
    Case(table, h, 0)
  }

  /** The `case @surface_temp` term of `habitability`: half-open ranges, no `else`. */
  function TemperatureTerm(t: real): (n: int)
    ensures 0 <= n <= 2
    ensures 255.0 <= t < 266.0 ==> n == 1
    ensures 266.0 <= t < 322.0 ==> n == 2
    ensures 322.0 <= t < 333.0 ==> n == 1
    ensures t < 255.0 || 333.0 <= t ==> n == 0
  {
    var table := [When(Exclusive(255.0, 266.0), 1),
                  When(Exclusive(266.0, 322.0), 2),
                  When(Exclusive(322.0, 333.0), 1)];
    assert 266.0 <= t < 322.0 ==> IsFirstMatch(table, t, 1);
    assert 322.0 <= t < 333.0 ==> IsFirstMatch(table, t, 2);
    Case(table, t, 0)
  }

  /** `habitability`: the four terms added up, one of them for a non-marginal atmosphere. */
  function Habitability(w: World): (n: int)
    ensures 1 <= n <= 8
    ensures PressureTerm(AtmosphericPressure(w)) <= n
  {
    PressureTerm(AtmosphericPressure(w))
      + (if !w.marginal then 1 else 0)
      + HydrographicsTerm(w.hydrographics)
      + TemperatureTerm(w.surfaceTemp)
  }
}
