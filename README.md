# Atmosphere geometry of the particle simulation, in Dafny

The simulation builds a model atmosphere for a particle-transport toolkit. The atmosphere is
N layers stacked over a height H, either as flat slabs or as concentric shells around the
Earth. This project models how the simulation derives the numbers it hands to the toolkit,
and proves properties of them:

- **Resampled profile.** One day's density and temperature profile is picked by key and
  resampled with clamped linear interpolation onto N heights evenly spaced from 0 to H
  (`profile.dfy`, `interpolation.dfy`).
- **Layer materials.** Each layer's material carries its density and temperature, plus the
  composition read as (element, fraction) pairs (`materials.dfy`).
- **Layer limits and offsets.** The limits of each layer, and the correction factor that turns
  a height above ground into a world coordinate, for both topologies (`geometry.dfy`).
- **Detector placement.** Each sensitive detector is located in its layer, given its
  thickness, and clamped inside that layer (`geometry.dfy`, and the imperative
  `DetectorConstruction` in `construction.dfy`).
- **Per-layer magnetic field.** The field vector comes from a geomagnetic model or from an
  interpolated field table, and layer i gets a uniform field of vector i
  (`magnetic_field.dfy`, `construction.dfy`).
- **Sensitive detector.** It decides which particles to record, what row to write for each
  hit, and when to stop a track at ground level (`detector.dfy`).
- **Configuration.** The validators and the decimal-year arithmetic (`config.dfy`,
  `calendar.dfy`).

Toolkit units are positive real constants, with mm = 1 and km = 10^6 (`toolkit.dfy`). All
arithmetic is over unbounded reals.

The simulation's state-changing parts are classes with `modifies` clauses:
- `DetectorConstruction`;
- `UniformMagneticField`;
- `SensDetector`;
- the analysis manager's hit table and a track's status.

Each method is proved against a pure specification function. The lemmas beside those
functions state what the source promises: contiguous layers that tile the world, detectors
that stay inside their layer, and interpolation that is exact at knots and clamps outside
them.

## Model

| member | source | states |
|---|---|---|
| Interpolation.Interp | particle_simulation/construction.py:631-632 | clamped linear interpolation; the result lies between the least and greatest of `fp` |
| Interpolation.InterpLeftClamp | particle_simulation/construction.py:631-632 | at or left of the first knot the result is `fp[0]` |
| Interpolation.InterpRightClamp | particle_simulation/construction.py:631-632 | with increasing knots, at or right of the last knot the result is the last `fp` |
| Interpolation.InterpAtKnot | particle_simulation/construction.py:631-632 | with increasing knots, at knot k the result is exactly `fp[k]` |
| Interpolation.InterpOnSegment | particle_simulation/construction.py:631-632 | between knots k and k+1 the result is the line through those two points |
| Interpolation.InterpBetweenNeighbours | particle_simulation/construction.py:631-632 | between knots k and k+1 the result lies between `fp[k]` and `fp[k+1]` |
| Interpolation.InterpConstant | particle_simulation/construction.py:631-632 | a constant `fp` interpolates to that constant everywhere |
| Interpolation.Lerp | particle_simulation/construction.py:631-632 | the segment value lies between the two end values and equals the left one at the left end |
| Interpolation.MinMaxBound | particle_simulation/construction.py:631-632 | every element lies between the sequence's minimum and maximum |
| Interpolation.ScaleAll | particle_simulation/construction.py:626 | element i of the scaled column is element i times the unit, and the length is kept |
| Interpolation.ScaleAllIncreasing | particle_simulation/construction.py:626 | scaling by a positive unit keeps a column strictly increasing |
| Interpolation.Linspace | particle_simulation/construction.py:630 | N heights; the first is 0 and, for N > 1, the last is exactly H |
| Interpolation.LinspaceUniform | particle_simulation/construction.py:630 | height i is i steps of H/(N-1) above the start |
| Interpolation.LinspaceIncreasing | particle_simulation/construction.py:630 | the sample heights strictly increase |
| Interpolation.LinspaceInsideBand | particle_simulation/construction.py:630 | sample i lies between i and i+1 layer thicknesses above the ground |
| Profile.DecimalString | particle_simulation/construction.py:624 | the day's key is a non-empty string of decimal digits |
| Profile.DecimalStringRoundTrip | particle_simulation/construction.py:624 | reading a day's key back gives the day |
| Profile.DecimalStringInjective | particle_simulation/construction.py:624 | distinct days never share a key |
| Profile.Resample | particle_simulation/construction.py:611-634 | fails exactly on a missing key, an empty profile or ragged columns (a missing key gives the key error); on success it gives N densities, N temperatures and the linspace heights |
| Profile.ResampleAtProfilePoint | particle_simulation/construction.py:626-632 | a layer height equal to a profile altitude (in km) gets that altitude's density and temperature |
| Profile.ResampleAboveProfile | particle_simulation/construction.py:626-632 | above the profile's top altitude the top values are used; nothing is extrapolated |
| Profile.ResampleWithinRange | particle_simulation/construction.py:631-632 | every resampled value lies within the day's own range |
| Profile.TwoPointProfileScenario | particle_simulation/construction.py:611-634 | on a two-point profile, ten layers over 70 km have the ground values at the bottom and the 70 km values at the top |
| Materials.PairComposition | particle_simulation/construction.py:583-590 | succeeds exactly when entries alternate symbol, percentage; pair k is (entry 2k, entry 2k+1 times perCent), half as many pairs as entries |
| Materials.LayerMaterials | particle_simulation/construction.py:593-607 | one material per layer, with that layer's density times kg/m3 and temperature times kelvin and the shared components |
| Materials.DefineMaterials | particle_simulation/construction.py:572-609 | fails exactly on a malformed composition; otherwise material i has layer i's density and temperature and the paired composition |
| Materials.DefaultComposition | particle_simulation/config.py:222-226 | the default N 70 O 27 Ar 3 pairs to fractions 0.70, 0.27 and 0.03 |
| Geometry.FlatCorrection | particle_simulation/construction.py:293-294 | the ground maps to the flat world's bottom face and the atmosphere's top to its top face |
| Geometry.CurvedCorrection | particle_simulation/construction.py:429-434 | the curved offset (the Earth's radius in length units) is positive for a positive radius; its use as the bottom of the shells is stated by CurvedLimitsStacked |
| Geometry.FlatLimits | particle_simulation/construction.py:313-319 | N limits, one per layer; their values are stated by FlatLimitArith and FlatLimitsStacked |
| Geometry.FlatLayerCentred | particle_simulation/construction.py:329-334 | layer i's box is placed at its lower limit plus half a layer, midway between its limits |
| Geometry.FlatLimitArith | particle_simulation/construction.py:294-319 | flat layer i starts i layer thicknesses above -H/2 and is H/N thick |
| Geometry.FlatLimitNext | particle_simulation/construction.py:313-319 | flat layer i+1 starts where layer i ends |
| Geometry.FlatLimitEnds | particle_simulation/construction.py:294-319 | the bottom flat layer starts at -H/2 and layer N-1 ends at H/2 |
| Geometry.FlatLimitsStacked | particle_simulation/construction.py:294-319 | the flat limits are contiguous, each H/N thick, from -H/2 to H/2 |
| Geometry.CurvedLimits | particle_simulation/construction.py:475-480 | N shell limits, one per layer; their values are stated by CurvedLimitArith and CurvedLimitsStacked |
| Geometry.CurvedLimitArith | particle_simulation/construction.py:475-480 | shell i starts i layer thicknesses above the Earth's radius and is H/N thick |
| Geometry.CurvedLimitNext | particle_simulation/construction.py:475-480 | shell i+1 starts where shell i ends |
| Geometry.CurvedLimitEnds | particle_simulation/construction.py:475-480 | the shells run from cf to cf + H |
| Geometry.CurvedLimitsStacked | particle_simulation/construction.py:475-480 | the shells are contiguous, each H/N thick, from cf to cf + H |
| Geometry.StackedOrdered | particle_simulation/construction.py:313-319 | in stacked layers, a higher layer starts at or above the top of every lower one |
| Geometry.StackedSpan | particle_simulation/construction.py:313-319 | every stacked layer lies within the span of the whole stack |
| Geometry.StackedCoversFrom | particle_simulation/construction.py:354-361 | every altitude inside the stack lies in some layer |
| Geometry.StackedLookup | particle_simulation/construction.py:354-361 | the search puts an altitude inside the stack into the lowest layer holding it, and one above the stack into layer 0 |
| Geometry.FirstEnclosing | particle_simulation/construction.py:355-361 | the first layer from j on that holds the altitude, and none before it does |
| Geometry.EnclosingLayer | particle_simulation/construction.py:353-361 | the lowest layer holding the altitude; 0 when no layer holds it |
| Geometry.BoundaryGoesToLowerLayer | particle_simulation/construction.py:356-361 | an altitude on the boundary of layers j and j+1 goes to layer j |
| Geometry.DetectorThickness | particle_simulation/construction.py:366-368 | the thickness is the smaller of 10 mm and a tenth of a layer |
| Geometry.DetectorThicknessFits | particle_simulation/construction.py:366-368 | the thickness is positive and at most a tenth of a layer |
| Geometry.FlatDetectorInsideLayer | particle_simulation/construction.py:389-400 | the flat clamp keeps the detector inside [-b, b]: unmoved when it fits, top face on the layer top when too high, moved up by half its thickness when too low |
| Geometry.CurvedDetectorInsideLayer | particle_simulation/construction.py:529-536 | the curved clamp keeps the shell inside the layer: at the altitude when it fits, else touching the top |
| Geometry.FlatDetectorPosition | particle_simulation/construction.py:389-400 | the detector is moved down only to put its top face on the layer's top, moved up only by half its thickness, and never sticks out above the layer |
| Geometry.CurvedDetectorBase | particle_simulation/construction.py:529-536 | the shell never crosses the layer's top, is never raised, and is lowered only to touch the top |
| Geometry.FlatPlacement | particle_simulation/construction.py:345-400 | a real layer, holding the altitude unless it is the fallback 0, with no lower layer holding it; the detector thickness |
| Geometry.CurvedPlacement | particle_simulation/construction.py:499-536 | the same for the shells of the curved world |
| Geometry.FlatPlacements | particle_simulation/construction.py:345-400 | one placement per configured detector; where each lands is stated by FlatPlacementInsideLayer |
| Geometry.CurvedPlacements | particle_simulation/construction.py:499-536 | one placement per configured detector; where each lands is stated by CurvedPlacementInsideLayer |
| Geometry.AltitudeSign | particle_simulation/construction.py:346-349 | a non-negative altitude in km is a non-negative length |
| Geometry.FlatLookup | particle_simulation/construction.py:346-361 | a non-negative detector altitude lands in the lowest flat layer holding it, or in layer 0 when above the atmosphere |
| Geometry.CurvedLookup | particle_simulation/construction.py:500-515 | the same for the shells of the curved world |
| Geometry.FlatPlacementInsideLayer | particle_simulation/construction.py:345-400 | every flat detector is in a real layer and wholly inside it; within the atmosphere its layer is the lowest one holding its altitude |
| Geometry.FlatAboveAtmosphereLandsInLayerZero | particle_simulation/construction.py:353-400 | a detector above the flat atmosphere is put in layer 0 with its top face on that layer's top |
| Geometry.FlatGroundDetector | particle_simulation/construction.py:389-400 | a ground-level detector sits in layer 0 with its bottom face on the ground |
| Geometry.CurvedPlacementInsideLayer | particle_simulation/construction.py:499-536 | every curved detector shell is in a real shell and wholly inside it |
| Geometry.CurvedAboveAtmosphereLandsInLayerZero | particle_simulation/construction.py:507-536 | a detector above the curved atmosphere is put in shell 0, touching its top |
| Geometry.SectorAngle | particle_simulation/construction.py:429-431 | the sector's angle times the Earth's radius is the world's size |
| Geometry.FlatWorld | particle_simulation/construction.py:285-287 | the flat world is H high |
| Geometry.CurvedWorld | particle_simulation/construction.py:437-445 | the curved world shell is H thick |
| Geometry.FlatLayersTileWorld | particle_simulation/construction.py:285-319 | the flat layers tile the world box from its bottom face to its top face |
| Geometry.CurvedLayersTileWorld | particle_simulation/construction.py:437-480 | the shells tile the world shell |
| MagneticField.FromModel | particle_simulation/construction.py:257-260 | a model reading becomes tesla with the vertical component negated; ToModel gives the reading back |
| MagneticField.ModelField | particle_simulation/construction.py:249-261 | one vector per sample height; which reading each is is stated by ModelFieldReadsSampleHeights |
| MagneticField.ModelFieldReadsSampleHeights | particle_simulation/construction.py:250-260 | vector i comes from the model at layer i's sample height in km |
| MagneticField.ModelQueriedFromGroundToTop | particle_simulation/construction.py:250-256 | the model is queried first at 0 km and last at H in km |
| MagneticField.TableField | particle_simulation/construction.py:262-275 | fails exactly on an empty table; otherwise one vector per height, each component within its column's range |
| MagneticField.OneRowTable | particle_simulation/construction.py:266-275 | a one-row table gives every layer that row's field |
| MagneticField.TableExactAtRow | particle_simulation/construction.py:266-275 | a sample height equal to a row's altitude gets that row's field |
| MagneticField.TableClampsAboveTopRow | particle_simulation/construction.py:266-275 | above the table's top row the top row's field is used |
| MagneticField.LayerFields | particle_simulation/construction.py:243-275 | fails exactly for the file source with an empty table, or for the model source with at least one layer and a date in year 9999 (the decimal year raises); otherwise one vector per layer, the model's taken at the date's decimal year |
| MagneticField.ModelSourceIgnoresTable | particle_simulation/construction.py:243-261 | any source other than "file" uses the model and ignores the table; it succeeds exactly when there are no layers or the year is below 9999 |
| Construction.UniformMagneticField.constructor | particle_simulation/construction.py:48-59 | each component is stored times tesla |
| Construction.UniformMagneticField.GetFieldValue | particle_simulation/construction.py:71-80 | writes (fbx, fby, fbz) into the first three slots whatever the point, and nothing else |
| Construction.UniformMagneticField.SetFieldy | particle_simulation/construction.py:84-90 | sets fby to the value unscaled; fbx and fbz are unchanged |
| Construction.DetectorConstruction.constructor | particle_simulation/construction.py:94-143 | the layer count, height and size in length units, the resampled profile and heights, the layer materials, zeroed limits and a zero offset |
| Construction.DetectorConstruction.LocateDetectors | particle_simulation/construction.py:352-361 | the nested search with break gives each detector the lowest layer holding it, or 0 |
| Construction.DetectorConstruction.ConstructFlatWorld | particle_simulation/construction.py:277-420 | offset -H/2, limits equal to FlatLimits, world FlatWorld, detectors placed as FlatPlacements when enabled |
| Construction.DetectorConstruction.ConstructSphericalWorld | particle_simulation/construction.py:422-570 | offset the Earth's radius, limits equal to CurvedLimits, the sector angle, detectors placed as CurvedPlacements when enabled |
| Construction.DetectorConstruction.Construct | particle_simulation/construction.py:145-187 | builds the flat world for "flat" and the curved one otherwise, and clears the export flag |
| Construction.DetectorConstruction.GetMagneticField | particle_simulation/construction.py:232-275 | the model-mode loop (which reads the decimal year on every layer and fails on the first in year 9999) and the table mode give exactly LayerFields |
| Construction.DetectorConstruction.NewLayerFields | particle_simulation/construction.py:209-217 | one new uniform field per layer vector, holding the vector times tesla |
| Construction.DetectorConstruction.NewSensDetectors | particle_simulation/construction.py:219-230 | one new sensitive detector per placed detector, named after its index, with the process number, accepted set and offset |
| Construction.DetectorConstruction.ConstructSDandField | particle_simulation/construction.py:189-230 | when enabled, layer i gets a new uniform field of vector i (a field error propagates); every placed detector gets a sensitive detector named after its index, carrying the offset |
| Construction.FlatSampleInsideLayer | particle_simulation/construction.py:199-217 | layer i's profile and field sample height lies inside flat layer i, though not at its middle |
| Construction.CurvedSampleInsideLayer | particle_simulation/construction.py:199-217 | the same for the shells of the curved world |
| Detector.GroundZ | particle_simulation/detector.py:90-105 | the recorded z plus the offset gives back the world z |
| Detector.RecordRow | particle_simulation/detector.py:95-106 | x and y are recorded unchanged, z from the ground, time in seconds, with the particle name and process number |
| Detector.SensDetector.constructor | particle_simulation/detector.py:17-41 | the accepted set is the configured names, and the offset defaults to 0 |
| Detector.SensDetector.ProcessHits | particle_simulation/detector.py:43-111 | always true; an unaccepted particle changes nothing; an accepted one appends exactly one row, and its track is killed exactly when its z from the ground is at most 5000 mm |
| Detector.ValidatedAcceptedSet | particle_simulation/detector.py:35-37 | for a validated, enabled setting the accepted set is non-empty and holds only detector-list names |
| Detector.WildcardAcceptsAll | particle_simulation/detector.py:64-67 | "all" accepts every particle |
| Detector.AcceptsNamedOnly | particle_simulation/detector.py:64-67 | without "all", exactly the named particles are accepted |
| Detector.FlatHitRecordsAltitude | particle_simulation/detector.py:90-105 | in the flat world, a hit at altitude a km is recorded at a km and killed exactly when a km is at most 5000 mm |
| Detector.CurvedHitRecordsAltitude | particle_simulation/detector.py:90-105 | on the curved sector's axis (x = y = 0), a hit at altitude a km is recorded at a km and killed exactly when a km is at most 5000 mm |
| Detector.CurvedOffAxisRecordsBelowAltitude | particle_simulation/detector.py:90-105 | off the axis, a hit at distance R + a from the centre is recorded below a |
| Detector.CurvedEdgeHitKilledAboveGround | particle_simulation/detector.py:90-92 | with the default radius and size, a hit 0.5 km up near the sector's edge is recorded below ground and killed |
| Detector.Accepts | particle_simulation/detector.py:64-67 | with "all" every particle is accepted; without it, exactly the named ones |
| Detector.ReachedGround | particle_simulation/detector.py:90-92 | a track has reached the ground exactly when its world z is at most the offset plus 5000 mm |
| Configuration.Lower | particle_simulation/config.py:17 | lower-casing maps each character and keeps the length |
| Configuration.Upper | particle_simulation/config.py:255 | upper-casing maps each character and keeps the length |
| Configuration.LowerIdempotent | particle_simulation/config.py:140 | lower-casing twice is lower-casing once |
| Configuration.LastIndexOf | particle_simulation/config.py:325-327 | the last position of a character, or -1 when absent |
| Configuration.FileName | particle_simulation/config.py:325-327 | the final component left after dropping empty and "." components; never "." and without separators |
| Configuration.Suffix | particle_simulation/config.py:325-327 | empty, or a dot followed by at least one character and no further dot, ending a strictly longer final component |
| Configuration.TrailingComponentsIgnored | particle_simulation/config.py:325-327 | a trailing "/" or "/." changes neither the final component nor the suffix |
| Configuration.JsonSuffix | particle_simulation/config.py:325-327 | the suffix is ".json" exactly when the file name ends with it after a non-leading dot |
| Configuration.ValidateGenerator | particle_simulation/config.py:14-74 | passes iff the counts are in range, the type is gps or particle_gun, and a gun's particle is on the gun list |
| Configuration.GpsIgnoresParticle | particle_simulation/config.py:60-73 | a gps generator passes whatever its particle |
| Configuration.GunRejectsWildcard | particle_simulation/config.py:61-73 | a particle gun cannot shoot "all" |
| Configuration.ValidateSensitiveDetectors | particle_simulation/config.py:91-120 | disabled always passes; enabled passes iff there are altitudes and particles, no altitude is negative and every name is on the detector list |
| Configuration.ValidateDensityProfile | particle_simulation/config.py:123-131 | passes iff day_idx >= 0 |
| Configuration.ValidateMagneticField | particle_simulation/config.py:134-169 | passes iff latitude is in [-90, 90], longitude in [-180, 180] and the date valid; the source is lower-cased |
| Configuration.DecimalYear | particle_simulation/config.py:171-191 | fails exactly for a date in year 9999; otherwise it is the date's decimal year, in [year, year + 1) |
| Configuration.ValidateConstructor | particle_simulation/config.py:194-238 | passes iff the nested field, detector and profile settings pass, radius, size and height are positive, there are at least two composition entries and one layer, and the lower-cased input geometry and geometry are allowed choices |
| Configuration.ValidateConstructorSound | particle_simulation/config.py:194-238 | a passing constructor setting has positive radius, size and height, N > 0, an input geometry of gdml or custom and a geometry of flat or curved, lower-cased |
| Configuration.ValidateConfig | particle_simulation/config.py:241-328 | passes iff the seed, process count, particles per run and time resolution are in range, generator and constructor pass, the upper-cased logger level is one of the five levels and the density file ends in ".json"; the level is stored upper-cased |
| Calendar.YearLengthByOrdinals | particle_simulation/config.py:187-189 | the ordinal difference of successive New Year's days is the Gregorian year length, 365 or 366 |
| Calendar.ToOrdinal | particle_simulation/config.py:187-191 | 1 January of year 1 is day 1; a valid date's ordinal lies after all earlier years' days and within its own year's |
| Calendar.DayOfYear | particle_simulation/config.py:191 | the days elapsed lie in [0, year length) |
| Calendar.TransformToDecimalYear | particle_simulation/config.py:177-191 | as written: fails exactly in year 9999 |
| Calendar.DecimalYear | particle_simulation/config.py:177-191 | lies in [year, year + 1) and is exactly the year on 1 January |
| Calendar.TransformAgreesWithDecimalYear | particle_simulation/config.py:177-191 | wherever the as-written computation succeeds it equals DecimalYear |
| Calendar.TransformFailsInLastYear | particle_simulation/config.py:189 | 1 June 9999 makes the as-written computation fail |
| Calendar.DecimalYearOfTime | particle_simulation/config.py:171-175 | the as-written computation on the date part: fails exactly in year 9999, and elsewhere equals the decimal year of the date |
| Calendar.DecimalYearIgnoresTimeOfDay | particle_simulation/config.py:174-175 | two instants on the same day have the same decimal year |

## Left out

- Toolkit object construction and registration are not modelled: solids, logical and physical volumes, field managers, the detector manager and the command messenger. Only the numbers passed to them are kept: limits, offsets, placements, materials, field vectors and detector settings.
- The GDML branch is not modelled: reading a geometry file, counting its layers, and writing the export file. `Construct` only clears the export flag.
- Construction.DetectorConstruction.constructor: it is modelled for the custom geometry only. It requires a validated configuration, a day the profile table holds with usable columns, and a well-formed composition. The failures of those steps are modelled by `Profile.Resample` and `Materials.DefineMaterials`, which return errors.
- File reading is not modelled. The density profile arrives as a parsed map of days, and the field table as parsed rows.
- The geomagnetic model is an uninterpreted function parameter.
- Element and material lookup in the toolkit's material database is not modelled; the world material (air) is left out.
- Logging, including the layer-midpoint altitude that is only logged, is not modelled.
- File-existence checks, command-line and environment setting sources, and the time-based default seed are not modelled.
- Detector.CurvedHitRecordsAltitude: holds on the curved sector's axis only. Off the axis the recorded z (world z minus the Earth's radius) lies below the altitude, as Detector.CurvedOffAxisRecordsBelowAltitude states, so the ground test can kill a track well above 5000 mm (Detector.CurvedEdgeHitKilledAboveGround).
- In `ProcessHits`, the theta and phi angles and the local position are computed but never written to the table, so they are not modelled. The current event's id comes from the run manager singleton; here it is carried in the `Step` value.
- Configuration.FileName follows POSIX path parsing: "/" is the only separator, and a drive or backslash is an ordinary character.
- Configuration.Lower and Configuration.Upper handle ASCII letters only; other characters are left unchanged.
- Interpolation.Interp agrees with the clamped interpolation only for strictly increasing knots. Unsorted knots have no documented meaning, so the lemmas about knots require increasing altitudes.
- IEEE floating-point rounding is not modelled; every property is stated over reals.

## Findings

| source | as written | input that shows it | evidently intended | confidence | as-written member | corrected member |
|---|---|---|---|---|---|---|
| particle_simulation/config.py:189 | the year's length is taken as the ordinal of 1 January of year + 1 minus that of 1 January of the year, so building 1 January of year + 1 raises for the last representable year | a field date of 9999-06-01 | the length of the date's own year (365 or 366 by the Gregorian rule), giving a decimal year in [9999, 10000) | not executed | Calendar.TransformToDecimalYear (shown by Calendar.TransformFailsInLastYear) | Calendar.DecimalYear |

The construction path keeps the as-written behaviour. `MagneticField.LayerFields` and `Construction.DetectorConstruction.GetMagneticField` fail for a model-source date in year 9999, as the simulation does. Wherever the simulation succeeds, their value is taken at `Calendar.DecimalYear`, with which the as-written computation agrees (`Calendar.TransformAgreesWithDecimalYear`).
