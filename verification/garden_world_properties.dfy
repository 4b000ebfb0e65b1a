/**
  Properties of the garden-world model that relate several calls: the edges
  of the piecewise tables, their monotonicity in the roll, the large-world
  effects, and what the derived queries depend on.
 */
module GardenWorldProperties {
  import opened Dice
  import opened RealArith
  import opened GardenWorld

  // ---------------------------------------------------------------------------
  // Size and hydrographics
  // ---------------------------------------------------------------------------

  /** The size threshold sits between 16 and 17. */
  lemma SizeEdge()
    ensures RollSize(16) == Standard
    ensures RollSize(17) == Large
  {
  }

  /**
    A large world adds exactly 0.2 to the same roll before the clamp: it is
    never drier than the standard world with the same draws, never more than
    0.2 wetter, and exactly 0.2 wetter whenever the clamp does not bite.
   */
  lemma LargeHydrographicsBonus(die: int, frac: real)
    requires IsDiceTotal(1, die) && IsFraction(frac)
    ensures var s := RollHydrographics(Standard, die, frac);
            var l := RollHydrographics(Large, die, frac);
            && s <= l <= s + 0.2
            && (l < 1.0 ==> l == s + 0.2)
            && (s + 0.2 <= 1.0 ==> l == s + 0.2)
  {
  }

  /** On a large world a die of 5 or 6 always clamps to full coverage, which scores no water term. */
  lemma LargeWetWorldClamps(die: int, frac: real)
    requires IsDiceTotal(1, die) && IsFraction(frac) && 5 <= die
    ensures RollHydrographics(Large, die, frac) == 1.0
    ensures HydrographicsTerm(RollHydrographics(Large, die, frac)) == 0
  {
  }

  /**
    The correction is never below the absorption, and a heavier atmosphere
    never lowers it: with the same surface temperature, more atmosphere means
    a cooler blackbody temperature.
   */
  lemma CorrectionGrowsWithMass(absorption: real, mass1: real, mass2: real, blackbody: real)
    requires 0.0 <= absorption && 0.0 <= blackbody && 0.0 <= mass1 <= mass2
    ensures absorption <= BlackbodyCorrection(absorption, mass1, blackbody)
    ensures BlackbodyCorrection(absorption, mass1, blackbody) <= BlackbodyCorrection(absorption, mass2, blackbody)
  {
    MulLower(mass2, blackbody, mass1, blackbody);
    MulLower(absorption, 1.0 + mass1 * blackbody, absorption, 1.0);
    MulLower(absorption, 1.0 + mass2 * blackbody, absorption, 1.0 + mass1 * blackbody);
  }

  /** With everything else fixed, a heavier atmosphere never raises the blackbody temperature. */
  lemma BlackbodyTempFallsWithMass(surfaceTemp: real, absorption: real, mass1: real, mass2: real, blackbody: real)
    requires 247.0 <= surfaceTemp
    requires 0.79 <= absorption < 1.0
    requires 0.25 <= mass1 <= mass2 < 1.85
    requires 0.11 <= blackbody < 0.21
    ensures BlackbodyTemp(surfaceTemp, absorption, mass2, blackbody) <= BlackbodyTemp(surfaceTemp, absorption, mass1, blackbody)
  {
    var t1 := BlackbodyTemp(surfaceTemp, absorption, mass1, blackbody);
    var t2 := BlackbodyTemp(surfaceTemp, absorption, mass2, blackbody);
    var c1 := BlackbodyCorrection(absorption, mass1, blackbody);
    var c2 := BlackbodyCorrection(absorption, mass2, blackbody);
    CorrectionGrowsWithMass(absorption, mass1, mass2, blackbody);
    CorrectionBounds(absorption, mass1, blackbody);
    if t1 < t2 {
      MulLower(t2, c2, t2, c1);
      assert t1 * c1 < t2 * c1;
    }
  }

  /** Absorption lies within a tenth above the base of the stored coverage's bucket. */
  predicate AbsorptionFromCoverage(w: World) {
    AbsorptionBase(w.hydrographics) <= w.absorption < AbsorptionBase(w.hydrographics) + 0.1
  }

  /** Blackbody temperature times the correction built from the stored fields gives back the surface temperature. */
  predicate TempUndoesCorrection(w: World) {
    w.blackbodyTemp * BlackbodyCorrection(w.absorption, w.atmosphericMass, w.blackbody) == w.surfaceTemp
  }

  /** Gravity squared is the roll's coefficient squared times blackbody temperature times density. */
  predicate GravityFromRoll(w: World, total: int, frac: real)
    requires IsDiceTotal(2, total) && IsFraction(frac)
  {
    var c := GravityCoefficient(w.size, total, frac);
    w.gravity * w.gravity == c * c * (w.blackbodyTemp * w.density)
  }

  /**
    How the constructor links fields: absorption is drawn from the bucket of
    the stored coverage, blackbody temperature undoes the correction built
    from the stored absorption, mass and blackbody factor, and gravity is
    tied to the stored blackbody temperature and density.
   */
  lemma GenerateRelatesFields(tape: Tape, sqrt: real -> real)
    requires ValidTape(tape) && IsSquareRoot(sqrt)
    ensures AbsorptionFromCoverage(Generate(tape, sqrt))
    ensures TempUndoesCorrection(Generate(tape, sqrt))
    ensures GravityFromRoll(Generate(tape, sqrt), tape.gravityRoll, tape.gravityFrac)
  {
    var w := Generate(tape, sqrt);
    StoredTempUndoesCorrection(w);
    StoredGravitySquared(w, tape.gravityRoll, tape.gravityFrac, sqrt);
  }

  /** A record whose blackbody temperature is its surface temperature divided by its correction undoes that correction. */
  lemma StoredTempUndoesCorrection(w: World)
    requires WellFormed(w)
    requires w.blackbodyTemp == w.surfaceTemp / BlackbodyCorrection(w.absorption, w.atmosphericMass, w.blackbody)
    ensures TempUndoesCorrection(w)
  {
  }

  /** With the same 2d6 roll and fraction, a large world's gravity coefficient is above a standard one's. */
  lemma LargeGravityCoefficient(total: int, frac: real)
    requires IsDiceTotal(2, total) && IsFraction(frac)
    ensures GravityCoefficient(Standard, total, frac) < GravityCoefficient(Large, total, frac)
  {
  }

  /**
    Proof helper for `GenerateRelatesFields`: `RollGravity`'s squared relation
    restated on a record whose gravity was rolled from its own size,
    blackbody temperature and density.
   */
  lemma StoredGravitySquared(w: World, total: int, frac: real, sqrt: real -> real)
    requires WellFormed(w) && IsDiceTotal(2, total) && IsFraction(frac) && IsSquareRoot(sqrt)
    requires w.gravity == RollGravity(w.size, total, frac, w.blackbodyTemp, w.density, sqrt)
    ensures GravityFromRoll(w, total, frac)
  {
  }

  /**
    One fixed tape, traced through the constructor by hand: a large world whose
    0.2 bonus lifts coverage from 0.77 to 0.97, which moves absorption into the
    last bucket. No two 3d6 totals and no two fractions on the tape are
    equal, so each field shows which draw it read. Blackbody temperature and
    gravity are pinned by their links to the stored fields (their values are
    spelled out by `ScenarioOutcome`); the large-world pressure lies above 1.5
    and so takes the `else`, and the score is 1 + 1 + 1 + 2.
   */
  lemma LargeWorldScenario(sqrt: real -> real)
    requires IsSquareRoot(sqrt)
    ensures var w := Generate(Tape(17, 10, 0.7, 11, 4, 0.2, 9, 0.5, 0.3, 0.4, 18, 0.6, 7, 0.8, 16), sqrt);
            && w.size == Large
            && w.atmosphericMass == 1.02
            && !w.marginal
            && w.hydrographics == 0.97
            && w.surfaceTemp == 286.0
            && w.absorption == 0.82
            && w.blackbody == 0.15
            && TempUndoesCorrection(w)
            && w.density == 1.21
            && GravityFromRoll(w, 7, 0.8)
            && w.resources == 1
            && 1.5 < AtmosphericPressure(w)
            && Habitability(w) == 5
  {
    var tape := Tape(17, 10, 0.7, 11, 4, 0.2, 9, 0.5, 0.3, 0.4, 18, 0.6, 7, 0.8, 16);
    GenerateRelatesFields(tape, sqrt);
    ScenarioOutcome(Generate(tape, sqrt));
  }

  /**
    The derived values of the scenario world, from its stored fields and their
    links: the correction is 0.82 * (1 + 1.02 * 0.15) = 0.94546 and the gravity
    coefficient 0.065 + 5.3 * 0.0026 = 0.07878, so gravity exceeds 1 and the
    large-world pressure exceeds 1.5.
   */
  lemma ScenarioOutcome(w: World)
    requires WellFormed(w) && w.size == Large && w.atmosphericMass == 1.02 && !w.marginal
    requires w.hydrographics == 0.97 && w.surfaceTemp == 286.0
    requires w.absorption == 0.82 && w.blackbody == 0.15 && w.density == 1.21
    requires TempUndoesCorrection(w) && GravityFromRoll(w, 7, 0.8)
    ensures w.blackbodyTemp * 0.94546 == 286.0
    ensures w.gravity * w.gravity == 0.07878 * 0.07878 * (w.blackbodyTemp * 1.21)
    ensures 1.5 < AtmosphericPressure(w)
    ensures Habitability(w) == 5
  {
    MulLower(w.blackbodyTemp, w.density, 177.0, 1.21);
    MulLower(0.07878 * 0.07878, w.blackbodyTemp * w.density, 0.07878 * 0.07878, 177.0 * 1.21);
    RootLower(w.gravity * w.gravity, w.gravity, 1.0);
  }

  // ---------------------------------------------------------------------------
  // Absorption, density and resources tables
  // ---------------------------------------------------------------------------

  /** Shared edges go to the earlier, inclusive bucket; only values above 0.9 take 0.79. */
  lemma AbsorptionEdges(h: real)
    requires 0.9 < h
    ensures AbsorptionBase(0.2) == 0.9
    ensures AbsorptionBase(0.5) == 0.87
    ensures AbsorptionBase(0.9) == 0.83
    ensures AbsorptionBase(h) == 0.79
  {
  }

  /** Over non-negative coverage, more water never raises the absorption base. */
  lemma AbsorptionBaseNonIncreasing(h1: real, h2: real)
    requires 0.0 <= h1 <= h2
    ensures AbsorptionBase(h2) <= AbsorptionBase(h1)
  {
  }

  /** Over 3d6 totals the density base never decreases with the roll; 18 takes 1.15. */
  lemma DensityBaseMonotone(t1: int, t2: int)
    requires IsDiceTotal(3, t1) && IsDiceTotal(3, t2) && t1 <= t2
    ensures DensityBase(t1) <= DensityBase(t2)
    ensures DensityBase(18) == 1.15
  {
  }

  /** Over 3d6 totals resources lie in -2..2 and never decrease with the roll. */
  lemma ResourcesMonotone(t1: int, t2: int)
    requires IsDiceTotal(3, t1) && IsDiceTotal(3, t2) && t1 <= t2
    ensures -2 <= RollResources(t1) <= 2
    ensures RollResources(t1) <= RollResources(t2)
  {
  }

  /** The edges of the resources table. */
  lemma ResourcesEdges()
    ensures RollResources(4) == -2 && RollResources(5) == -1
    ensures RollResources(13) == 0 && RollResources(14) == 1
    ensures RollResources(16) == 1 && RollResources(17) == 2
  {
  }

  // ---------------------------------------------------------------------------
  // Atmospheric pressure
  // ---------------------------------------------------------------------------

  /** A standard world's pressure is mass times gravity; a large world's is five times that. */
  lemma PressureBySize(w: World)
    ensures AtmosphericPressure(w.(size := Standard)) == w.atmosphericMass * w.gravity
    ensures AtmosphericPressure(w.(size := Large)) == 5.0 * AtmosphericPressure(w.(size := Standard))
  {
  }

  /** Pressure reads only mass, gravity and size, so recomputing it on an equal record agrees. */
  lemma PressureReadsOnlyItsFields(w1: World, w2: World)
    requires w1.atmosphericMass == w2.atmosphericMass
    requires w1.gravity == w2.gravity
    requires w1.size == w2.size
    ensures AtmosphericPressure(w1) == AtmosphericPressure(w2)
  {
  }

  /** Every constructed world has a pressure above 0.07. */
  lemma PressureFloor(w: World)
    requires WellFormed(w)
    ensures 0.07 < AtmosphericPressure(w)
  {
    MulLower(w.atmosphericMass, w.gravity, 0.25, 0.31);
  }

  /**
    For every constructed world, a pressure that falls through to the `else`
    of the habitability pressure case lies above 1.5, the range written after
    that `else`: the unconditional +1 is never reached from below 0.01.
   */
  lemma GeneratedPressureElseIsHigh(tape: Tape, sqrt: real -> real)
    requires ValidTape(tape) && IsSquareRoot(sqrt)
    ensures var p := AtmosphericPressure(Generate(tape, sqrt));
            !(0.01 <= p <= 1.5) ==> 1.5 < p
  {
    PressureFloor(Generate(tape, sqrt));
  }

  // ---------------------------------------------------------------------------
  // Habitability
  // ---------------------------------------------------------------------------

  /** The boundary cases of the three ranged terms. */
  lemma HabitabilityEdges()
    ensures PressureTerm(0.5) == 1 && PressureTerm(1.5) == 3
    ensures PressureTerm(0.005) == 1 && PressureTerm(0.01) == 1
    ensures HydrographicsTerm(0.6) == 2 && HydrographicsTerm(1.0) == 0
    ensures TemperatureTerm(322.0) == 1 && TemperatureTerm(333.0) == 0
  {
  }

  /** Habitability reads only pressure inputs, the marginal flag, coverage and surface temperature. */
  lemma HabitabilityReadsOnlyItsFields(w1: World, w2: World)
    requires AtmosphericPressure(w1) == AtmosphericPressure(w2)
    requires w1.marginal == w2.marginal
    requires w1.hydrographics == w2.hydrographics
    requires w1.surfaceTemp == w2.surfaceTemp
    ensures Habitability(w1) == Habitability(w2)
  {
  }

  /** Changing only the coverage changes the score by exactly the change in the water term. */
  lemma HydrographicsTermInScore(w: World, h: real)
    ensures Habitability(w.(hydrographics := h)) - Habitability(w)
         == HydrographicsTerm(h) - HydrographicsTerm(w.hydrographics)
  {
    PressureReadsOnlyItsFields(w.(hydrographics := h), w);
  }

  /** Changing only the surface temperature changes the score by exactly the change in its term. */
  lemma TemperatureTermInScore(w: World, t: real)
    ensures Habitability(w.(surfaceTemp := t)) - Habitability(w)
         == TemperatureTerm(t) - TemperatureTerm(w.surfaceTemp)
  {
    PressureReadsOnlyItsFields(w.(surfaceTemp := t), w);
  }

  /**
    Records that agree on everything habitability reads except pressure
    differ in score by exactly the difference of their pressure terms.
   */
  lemma PressureTermInScore(w1: World, w2: World)
    requires w1.marginal == w2.marginal
    requires w1.hydrographics == w2.hydrographics
    requires w1.surfaceTemp == w2.surfaceTemp
    ensures Habitability(w1) - Habitability(w2)
         == PressureTerm(AtmosphericPressure(w1)) - PressureTerm(AtmosphericPressure(w2))
  {
  }

  /** A marginal atmosphere costs exactly one point and nothing else. */
  lemma MarginalCostsOne(w: World)
    ensures Habitability(w.(marginal := false)) == Habitability(w.(marginal := true)) + 1
  {
    PressureReadsOnlyItsFields(w.(marginal := false), w.(marginal := true));
  }
}
