# Garden world generator, modelled in Dafny

`GardenWorld` (garden_world.rb) builds a GURPS "garden world" from a fixed
chain of dice rolls: size, atmospheric mass, the marginal-atmosphere flag,
hydrographic coverage, surface temperature, absorption, blackbody factor,
blackbody temperature, density, gravity and resources. Two queries derive
from the stored record: `atmospheric_pressure` and `habitability`.

This project models that computation as pure Dafny functions.

- `dice.dfy` (module `Dice`): the draws. Each `n_d(k)` is an integer total in
  `k..6k` and each `rand` is a real in `[0, 1)`. A `Tape` record holds every
  draw the constructor makes, in its order. `ValidTape` states the range of
  each draw.
- `ruby_case.dfy` (module `RubyCase`): Ruby's `case x when range`.
  `lo..hi` is inclusive at both ends and `lo...hi` excludes `hi`. The first
  covering clause wins; the `else` value is used when none covers.
- `garden_world.dfy` (module `GardenWorld`): the `World` record, every
  `roll_*` method, the constructor (`Generate`), `AtmosphericPressure` and
  `Habitability`. Each `case` statement of the class is written as its
  literal clause table and evaluated by `RubyCase.Case`. The contract of each
  one states its closed-form piecewise reading, edges included, and is proved
  from the first-match semantics.
- `garden_world_properties.dfy` (module `GardenWorldProperties`): lemmas
  relating several calls. They cover table edges, monotonicity in the roll,
  the large-world effects, how the constructor links stored fields, how each
  term moves the habitability score, and a pressure floor for constructed
  worlds.
- `real_arith.dfy` (module `RealArith`): `[a, b].min` and small bounds on
  products, quotients and square roots of reals.

`Math.sqrt` is a parameter `sqrt: real -> real` of `Generate`. Its
precondition `IsSquareRoot` says that on non-negative reals it returns the
non-negative root. With that, gravity stays tied to blackbody temperature
times density: `RollGravity` proves that gravity squared equals the
coefficient squared times that product.

Two range edges in the class are easy to misread:
- The absorption ranges are inclusive and the first match wins, so 0.2 takes
  the 0.9 base, 0.5 takes 0.87 and 0.9 takes 0.83 (`AbsorptionBase`,
  `AbsorptionEdges`). A half-open reading would differ at those edges.
- The first pressure range `0.01..0.5` includes 0.01, and the `else` adds 1
  for every pressure outside the three ranges anyway, so that edge does not
  change the score.

The `else` of the pressure case has a range written after it. Ruby evaluates
that range and discards it, so the `else` adds 1 unconditionally, even below
0.01. `PressureTerm` keeps that literal behaviour. `GeneratedPressureElseIsHigh`
shows that a constructed world never reaches the `else` from below. Every
constructed world has a pressure above 0.07 (`PressureFloor`).

## Model

| member | source | states |
|---|---|---|
| RubyCase.FirstMatch | garden_world.rb:37-46 | the position it returns is the first `when` clause whose range covers the value: no earlier clause covers it, and it is one past the last clause exactly when none does |
| RubyCase.Case | garden_world.rb:106-115 | a `case` over ranges yields the value of the first covering clause, and the `else` value when no clause covers |
| GardenWorld.RollSize | garden_world.rb:22-24 | a 3d6 total of 3..16 gives a standard world and exactly 17 or 18 a large one |
| GardenWorld.AtmosphericMass | garden_world.rb:10 | atmospheric mass lies in [0.25, 1.85), within 0.05 of the 3d6 total divided by ten |
| GardenWorld.IsMarginal | garden_world.rb:11 | the marginal flag is set exactly for 3d6 totals 12..18 |
| GardenWorld.RollHydrographics | garden_world.rb:26-30 | coverage lies in [0.45, 1] and is at least 0.65 on a large world; it is the raw roll plus the large-world 0.2 when that is at most 1, and exactly 1 otherwise |
| GardenWorld.RollSurfaceTemp | garden_world.rb:32-34 | surface temperature lies in [247, 343), and within the six-degree band that its 3d6 total selects: from (total - 3.5) * 6 + 250 up to, not including, (total - 2.5) * 6 + 250 |
| GardenWorld.AbsorptionBase | garden_world.rb:36-47 | the base is 0.9 on [0, 0.2], 0.87 on (0.2, 0.5], 0.83 on (0.5, 0.9], and 0.79 above 0.9 or below 0 |
| GardenWorld.RollAbsorption | garden_world.rb:36-47 | absorption lies in [0.79, 1.0) and within a tenth above its bucket's base |
| GardenWorld.RollBlackbody | garden_world.rb:49-51 | the blackbody factor lies in [0.11, 0.21) |
| GardenWorld.CorrectionBounds | garden_world.rb:53-55 | over the rolled absorption, mass and blackbody ranges the correction lies in [0.79, 1.3885), so it is positive |
| GardenWorld.BlackbodyTemp | garden_world.rb:16 | the division is defined: blackbody temperature times the correction gives back the surface temperature, and it exceeds 177 |
| GardenWorld.DensityBase | garden_world.rb:57-70 | the base is 0.75 for 3..6, 0.85 for 7..10, 0.95 for 11..14, 1.05 for 15..17, and 1.15 otherwise (18) |
| GardenWorld.RollDensity | garden_world.rb:57-70 | density lies in [0.75, 1.25) and within a tenth above its bucket's base |
| GardenWorld.GravityCoefficient | garden_world.rb:73-79 | the linear part lies in the band its 2d6 total selects: from 0.03 + (total - 2.5) * 0.0035 up to, not including, 0.03 + (total - 1.5) * 0.0035 on a standard world, and the same with 0.065 and 0.0026 on a large one; overall [0.02825, 0.06675) and [0.0637, 0.0923), so it is positive |
| GardenWorld.RollGravity | garden_world.rb:72-80 | gravity is at least 0.31, and its square is the coefficient squared times blackbody temperature times density |
| GardenWorld.RollResources | garden_world.rb:88-101 | resources are -2 for 3..4, -1 for 5..7, 0 for 8..13, 1 for 14..16, and 2 otherwise (17, 18) |
| GardenWorld.Generate | garden_world.rb:8-20 | every constructed world has all fields in their rolled ranges (coverage at most 1, resources in -2..2, positive gravity), is large exactly for a size roll of 17 or more and marginal exactly for a roll of 12 or more |
| GardenWorld.AtmosphericPressure | garden_world.rb:82-86 | pressure is at least mass times gravity when both are positive, and at most it when their product is not positive |
| GardenWorld.PressureTerm | garden_world.rb:106-115 | the term is 1 on [0.01, 0.5], 2 on (0.5, 0.8], 3 on (0.8, 1.5], and 1 for every other pressure, including below 0.01 |
| GardenWorld.HydrographicsTerm | garden_world.rb:119-126 | the term is 1 on [0, 0.6), 2 on [0.6, 0.9), 1 on [0.9, 1), and 0 at exactly 1 or outside |
| GardenWorld.TemperatureTerm | garden_world.rb:128-135 | the term is 1 on [255, 266), 2 on [266, 322), 1 on [322, 333), and 0 outside |
| GardenWorld.Habitability | garden_world.rb:103-138 | habitability is always between 1 and 8 and never below its pressure term |
| GardenWorldProperties.SizeEdge | garden_world.rb:23 | a total of 16 is standard and 17 is large |
| GardenWorldProperties.LargeHydrographicsBonus | garden_world.rb:27-29 | with the same draws a large world is no drier and at most 0.2 wetter than a standard one, and exactly 0.2 wetter whenever the clamp does not apply |
| GardenWorldProperties.LargeWetWorldClamps | garden_world.rb:26-30 | on a large world a die of 5 or 6 clamps coverage to exactly 1, which earns no water term in habitability |
| GardenWorldProperties.LargeWorldScenario | garden_world.rb:8-19 | a fixed large-world tape on which no two 3d6 totals and no two fractions are equal yields mass 1.02, coverage 0.97 (0.77 plus the large-world 0.2), surface temperature 286, absorption 0.82 from the last bucket, blackbody 0.15, density 1.21, resources 1, no marginal atmosphere, blackbody temperature and gravity linked to those fields, a pressure above 1.5 and habitability 5 |
| GardenWorldProperties.ScenarioOutcome | garden_world.rb:16-18 | for the scenario's stored fields, blackbody temperature times 0.94546 is 286, gravity squared is 0.07878 squared times blackbody temperature times 1.21, pressure exceeds 1.5 and habitability is 5 |
| GardenWorldProperties.GenerateRelatesFields | garden_world.rb:12-18 | in every constructed world absorption lies within a tenth above the base of the stored coverage's bucket, blackbody temperature times the correction from the stored absorption, mass and blackbody factor gives back the stored surface temperature, and gravity squared is the gravity roll's coefficient squared times the stored blackbody temperature and density |
| GardenWorldProperties.LargeGravityCoefficient | garden_world.rb:73-79 | with the same roll and fraction, the large-world gravity coefficient exceeds the standard one |
| GardenWorldProperties.CorrectionGrowsWithMass | garden_world.rb:53-55 | `blackbody_correction` is never below the absorption, and with absorption and blackbody factor fixed it never decreases as atmospheric mass grows |
| GardenWorldProperties.BlackbodyTempFallsWithMass | garden_world.rb:16 | with surface temperature, absorption and blackbody factor fixed, a heavier atmosphere never raises the blackbody temperature |
| GardenWorldProperties.AbsorptionEdges | garden_world.rb:37-46 | the shared edges 0.2, 0.5 and 0.9 go to the earlier bucket; only coverage above 0.9 takes 0.79 |
| GardenWorldProperties.AbsorptionBaseNonIncreasing | garden_world.rb:37-46 | over non-negative coverage, more water never raises the absorption base |
| GardenWorldProperties.DensityBaseMonotone | garden_world.rb:58-69 | over 3d6 totals the density base never decreases with the roll, and 18 takes 1.15 |
| GardenWorldProperties.ResourcesMonotone | garden_world.rb:89-100 | over 3d6 totals resources lie in -2..2 and never decrease with the roll |
| GardenWorldProperties.ResourcesEdges | garden_world.rb:89-100 | 4 gives -2, 5 gives -1, 13 gives 0, 14 and 16 give 1, 17 gives 2 |
| GardenWorldProperties.PressureBySize | garden_world.rb:82-86 | a standard world's pressure is mass times gravity, and the same world made large has exactly five times that |
| GardenWorldProperties.PressureReadsOnlyItsFields | garden_world.rb:82-86 | two records with equal mass, gravity and size get equal pressure, so repeated queries agree |
| GardenWorldProperties.PressureFloor | garden_world.rb:82-86 | every record in the constructed ranges has a pressure above 0.07 |
| GardenWorldProperties.GeneratedPressureElseIsHigh | garden_world.rb:113-114 | for a constructed world, a pressure that reaches the `else` is above 1.5, never below 0.01 |
| GardenWorldProperties.HabitabilityEdges | garden_world.rb:106-135 | pressure 0.5 earns 1 and 1.5 earns 3, pressures 0.005 and 0.01 earn 1, coverage 0.6 earns 2 and 1 earns 0, temperature 322 earns 1 and 333 earns 0 |
| GardenWorldProperties.HabitabilityReadsOnlyItsFields | garden_world.rb:103-138 | records that agree on pressure, marginal flag, coverage and surface temperature get equal habitability |
| GardenWorldProperties.MarginalCostsOne | garden_world.rb:117 | with everything else equal, a non-marginal atmosphere scores exactly one point more than a marginal one |
| GardenWorldProperties.PressureTermInScore | garden_world.rb:106-115 | records that agree on the marginal flag, coverage and surface temperature differ in habitability by exactly the difference of their pressure terms, so a pressure of 0.005 scores the same as 0.5 and two less than 1.5 |
| GardenWorldProperties.HydrographicsTermInScore | garden_world.rb:119-126 | changing only the coverage changes habitability by exactly the change in the water term, so 0.6 coverage scores two more than 1.0 |
| GardenWorldProperties.TemperatureTermInScore | garden_world.rb:128-135 | changing only the surface temperature changes habitability by exactly the change in the temperature term |

## Left out

- `output_statistics` and the `$PROGRAM_NAME` entry point (garden_world.rb:140-156): console output and display rounding only.
- The random sources: `n_d` comes from `gurps_support`, which is not part of this model, and `Kernel#rand` is not modelled either. Both become `Tape` fields, each with a range precondition.
- `Math.sqrt` is the parameter `sqrt`, constrained by `IsSquareRoot`. The `Math::DomainError` it raises on a negative argument is not modelled. Its argument is always positive here (above 132).
- IEEE-754 rounding: all arithmetic is exact over `real`. The edge results hold for exact values; float literals such as `0.2` are not modelled bit for bit.
- The Integer-versus-Float result of `[result, 1].min` (garden_world.rb:29): over reals both are 1.0.
- The range object `(1.5..Float::INFINITY)` after the pressure `else` is built and discarded by Ruby, so it does not appear in the model.
- GardenWorld.Generate: its own contract states the field ranges and the size and marginal thresholds only. The links between fields (absorption from the stored coverage, blackbody temperature from the correction, gravity from blackbody temperature and density) are stated by `GenerateRelatesFields`, because as ensures of `Generate` they make every use of it far more expensive to verify.
- GardenWorld.BlackbodyCorrection: it only computes; its bounds are stated by `CorrectionBounds` and its growth with mass by `CorrectionGrowsWithMass`.
- GardenWorld.AtmosphericPressure: its own contract only bounds pressure against mass times gravity. The exact standard and large-world values are stated by `PressureBySize`.
