# RTLS simulator core, modelled in Dafny

This project models the simulation engine of a Real-Time Location System (RTLS)
simulator. The engine keeps a registry of tags (people, vehicles, assets) that
move inside a site made of box-shaped zones. On every tick it updates one tag:
- the battery drains slowly;
- the signal strength (RSSI) wanders within [-90, -40] dBm;
- the tag moves with a random walk that bounces off the walls of the zone it is in;
- the tag's recorded zone is recomputed, and a zone alert (entered or exited) is
  produced when the zone changed.

The engine also answers queries: the location update of one tag, all tags, and the
tags recorded in a zone. It can force anomalies on a tag: low battery, weak
signal, fast movement, or out of bounds.

Modules:
- `Wrappers`: `Option`.
- `Numeric`: Python's `max(lo, min(hi, v))` clamp, float `% 360`, and `round(v, n)`.
- `Models`: positions, zones, the `Tag` class, location updates and zone alerts.
- `Zones`: the two first-match searches over the ordered zone list, and the rule
  that turns a change of zone into at most one alert.
- `Motion`: one kinematic step as a pure function of the random draws.
- `Generator`: the class `RtlsGenerator`. It covers building the registry, the
  in-place tick (`UpdateTagPosition`, `MoveTag`, `TrackZone`), the queries and
  `SimulateAnomaly`. Each method is proved against the functions of the other
  modules.
- `DictOrder`: the key order seen from the front of the configuration, where a
  repeated id keeps the place of its first config.
- `Scenarios`: the concrete expectations of the test suite, stated as lemmas.

Randomness, trigonometry and the clock become parameters:
- The draws of one tick are gathered in `TickDraws`, and those of one step in `MotionDraws`.
- The initial headings drawn when the registry is built are the constructor's `headings`.
- The two draws of `SimulateAnomaly` are its `batteryDraw` and `rssiDraw`.
- The cosine and sine of the new heading are supplied by the caller.
- The UTC clock reading is an `Instant`.

The ranges the draws come from appear where they are needed:
- The ranges of a step's draws, and the unit length of the direction vector, are
  `Motion.DrawsInRange`. This is a hypothesis of the step lemmas that need it.
  `MoveTag` and `UpdateTagPosition` hold for any draws.
- The range [0, 360] of the initial headings is part of `Generator.ConfiguredInRange`.
  This is a hypothesis of the constructor's range clause.
- The anomaly draws' ranges, [5, 15] and [-85, -80], are preconditions of `SimulateAnomaly`.
- The signal step's range [-5, 5] is stated nowhere: the clamp to [-90, -40] holds whatever the step is.

Two behaviours of the source are kept as written:
- When a tag moves straight from one zone into another, the exit alert is
  computed first and then overwritten by the entry alert. Only the entry is
  reported.
- The `out_of_bounds` anomaly moves a tag to (-10, -10) without updating its
  recorded zone. So the invariant "every recorded zone is the zone of the tag's
  position" (`ZonesConsistent`) holds after construction and is kept by every
  tick, but not by that anomaly. The weaker "every recorded zone id names a
  configured zone" (`ZoneIdsKnown`) is kept by everything.

## Model

| member | source | states |
|---|---|---|
| Numeric.Clamp | src/rtls_generator.py:147 | `max(lo, min(hi, v))` lies in [lo, max(lo, hi)], is `v` when `v` is in range, and is the nearer bound otherwise |
| Numeric.ClampInt | src/rtls_generator.py:84 | the integer clamp of the RSSI: at least `lo`, at most `hi` when the range is non-empty, the identity inside the range and the nearer bound outside |
| Numeric.Mod360 | src/rtls_generator.py:143 | Python's floored `% 360` lands in [0, 360) and leaves headings already in [0, 360) unchanged |
| Numeric.Mod360Periodic | src/rtls_generator.py:143 | adding any whole number of turns does not change the normalised heading |
| Numeric.RoundHalfEven | src/models.py:80-86 | the nearest integer, within 0.5, and ties go to the even neighbour |
| Numeric.Round | src/models.py:80-86 | `round(v, n)` is a multiple of 10^-n, within half a unit of the n-th decimal of `v`, and on a tie the even multiple |
| Numeric.RoundIdempotent | src/models.py:80-86 | rounding an already rounded value to the same number of decimals changes nothing |
| Models.Position.SquaredDistanceTo | src/models.py:16-20 | the squared Euclidean distance is never negative |
| Models.DistanceSymmetric | src/models.py:16-20 | the distance from a to b equals the distance from b to a, and a point is at distance 0 from itself |
| Models.Zone.Contains | src/models.py:35-39 | only a box with ordered bounds contains a point, and such a box contains its lower corner |
| Models.ContainsBoundaryInclusive | src/models.py:35-39 | a zone that contains a point has ordered bounds; both extreme corners are inside it; a point beyond any face is outside it |
| Models.Tag.constructor | src/models.py:42-54 | a new tag has the given identity and position, and speed 0, heading 0, battery 100, RSSI -70, no timestamp and no zone unless given |
| Models.FromTag | src/models.py:74-89 | the location update copies id, zone, battery and RSSI, carries the clock reading, and rounds coordinates and speed to within 0.005 and the heading to within 0.05 |
| Models.FromTagIgnoresClock | src/models.py:74-89 | two updates of an unchanged tag differ only in their timestamp |
| Zones.FirstContaining | src/rtls_generator.py:63-68 | the index found contains the point and no earlier zone does; no index means no zone contains it |
| Zones.CurrentZone | src/rtls_generator.py:63-68 | none exactly when no zone contains the point; otherwise the id of the first containing zone in list order |
| Zones.GetCurrentZone | src/rtls_generator.py:63-68 | the loop with early return computes `CurrentZone` |
| Zones.FirstWithId | src/rtls_generator.py:70-75 | the index found has the id and no earlier zone has it; no index means no zone has it |
| Zones.ZoneById | src/rtls_generator.py:70-75 | none exactly when no zone has the id; otherwise the first zone in list order with that id |
| Zones.FindContainingZone | src/rtls_generator.py:158-168 | the loop with `break` finds the index `FirstContaining` gives, or none |
| Zones.GetZoneById | src/rtls_generator.py:70-75 | the loop with early return computes `ZoneById` |
| Zones.CurrentZoneResolves | src/rtls_generator.py:63-75 | every id the containment search returns is found by the lookup by id |
| Zones.TransitionAlert | src/rtls_generator.py:98-130 | no alert without a change of zone; an alert carries the tag and the clock reading and names a configured zone; an entry is for the new zone and is produced whenever the new id resolves; an exit is for the old zone and only when the new id is absent or unresolved; leaving every zone alerts exactly when the old id resolves; a change whose new id is absent or unresolved gives an exit for the old zone exactly when the old id resolves, and nothing otherwise |
| Zones.TrackedTransitionAlert | src/rtls_generator.py:98-130 | with the new zone found by the containment search, a change into a zone always gives an entry for it, and a change out of all zones gives an exit for the old zone exactly when the old id resolves |
| Motion.ProfileMaxSpeed | src/rtls_generator.py:87-96 | the speed ceiling is 1.0 for assets, the configured maximum for vehicles, and 2.0 for any other type |
| Motion.MovesThisTick | src/rtls_generator.py:87-96 | every type other than "asset" moves on every tick; an asset moves exactly when its trigger fires |
| Motion.Travel | src/rtls_generator.py:151-152 | the displacement along one axis is at most speed·\|dt\| in size, for a non-negative speed and a component of the unit direction |
| Motion.BounceHeading | src/rtls_generator.py:157-168 | the reflected heading stays in [0, 360) |
| Motion.Step | src/rtls_generator.py:135-176 | after a step the speed lies in [0, max(0, ceiling)] and the heading in [0, 360) |
| Motion.StepStaysWithinWalls | src/rtls_generator.py:157-171 | a tag that starts inside a zone ends within the x and y walls of the first such zone, and with its height unchanged it is still in that zone |
| Motion.StepUnconstrainedOutsideZones | src/rtls_generator.py:149-171 | outside every zone the tag moves by exactly speed·dt along its new heading, and its heading is not reflected |
| Motion.StepReflectsAtRightWall | src/rtls_generator.py:160-162 | reaching the right wall, and no y wall, leaves the tag on the wall with its heading mirrored to 180 - heading |
| Motion.StepReflectsAtTopWall | src/rtls_generator.py:164-166 | reaching the top wall, and no x wall, leaves the tag on the wall with its heading negated (mod 360) |
| Motion.StepVertical | src/rtls_generator.py:173-176 | the height changes only for a jittered person, and then stays within [0, 2] |
| Motion.StepAtZeroCeiling | src/rtls_generator.py:145-176 | with a ceiling of 0 the tag stops and keeps its x and y; unless it is a person whose height is jittered, its whole position is unchanged |
| Motion.StepTravelBounded | src/rtls_generator.py:142-171 | with draws in range, a step moves the tag at most ceiling·\|dt\| along each horizontal axis, wall clamp included |
| Motion.StepSpeedChangeBounded | src/rtls_generator.py:145-147 | with draws in range and a speed already in [0, ceiling], the speed changes by at most acceleration·\|dt\| |
| Generator.KeyOrder | src/rtls_generator.py:38-61 | the registry's key order has at most one key per configured tag |
| Generator.LastIndexOf | src/rtls_generator.py:38-61 | the position of the last config with a given id: it has that id and no later config does; none means no config has it |
| Generator.KeyOrderKeys | src/rtls_generator.py:38-61 | the key order lists each configured id exactly once, and no other |
| Generator.KeyOrderOfDistinct | src/rtls_generator.py:38-61 | with distinct ids the key order is the configuration order |
| DictOrder.FirstIndexOf | src/rtls_generator.py:38-61 | the position of the first config with a given id: it has that id and no earlier config does; none means no config has it |
| DictOrder.KeyOrderFirstOccurrence | src/rtls_generator.py:38-61 | a repeated id keeps the place of its first config: the keys are ordered by the index of the first config that carries them |
| Generator.KeyedAlike | src/rtls_generator.py:48-59 | an id is in the key order exactly when the registry has an entry for it |
| Generator.InitialState | src/rtls_generator.py:42-58 | a configured tag starts with the configured identity, x, y and heading, the configured height (0 when omitted), battery 100 when omitted, at rest with RSSI -70 and no timestamp |
| Generator.NewTag | src/rtls_generator.py:42-58 | a fresh tag at the configured position (height 0 when omitted), at rest, with the drawn heading, the configured battery (100 when omitted), RSSI -70, and the zone of its position |
| Generator.RegistryOf | src/rtls_generator.py:40-59 | every entry of the dict is filed under the id of the tag it holds |
| Generator.PrefixStep | src/rtls_generator.py:48-59 | handling one more config assigns its tag under its id, and appends the id to the key order only when it is new |
| Generator.RegistryLastWins | src/rtls_generator.py:38-61 | the registry holds exactly the configured ids, each built from the last config with that id |
| Generator.RegistryEntries | src/rtls_generator.py:38-61 | every registry entry is filed under its own id, at rest, with RSSI -70 and the zone of its position; with batteries and headings in range every entry starts in range; the key order lists exactly the registry's keys, once each |
| Generator.InitTags | src/rtls_generator.py:38-61 | the loop builds one fresh tag per key of the registry, in the state the registry gives it, and the key order of the dict |
| Generator.TagsMatchRegistry | src/rtls_generator.py:38-61 | tags built from the registry are filed under their ids, have the zone of their position, and start in range when the configuration is |
| Generator.TagsOf | src/rtls_generator.py:186-188 | the tags listed in key order, one per key |
| Generator.Occupants | src/rtls_generator.py:190-192 | the filtered list is a sub-list of the input in its order, holds exactly the listed tags whose recorded zone is the given id, and repeats nothing when the input repeats nothing |
| Generator.RtlsGenerator.constructor | src/rtls_generator.py:15-19 | the registry is as `RegistryOf` and `KeyOrder` describe, with fresh tags; every tag is filed under its id and records the zone of its position; with batteries and headings in range every tag starts in its operating range |
| Generator.RtlsGenerator.MoveTag | src/rtls_generator.py:135-176 | the in-place move leaves the position, speed and heading as `Step` gives them, and changes nothing else |
| Generator.RtlsGenerator.BounceOffWalls | src/rtls_generator.py:160-166 | the two wall checks leave the heading as `BounceHeading` and the candidate x and y clamped to the zone |
| Generator.RtlsGenerator.MoveByType | src/rtls_generator.py:87-96 | the kinematics after the dispatch are one `Step` with the type's speed ceiling when the tag moves this tick, and unchanged otherwise |
| Generator.RtlsGenerator.TrackZone | src/rtls_generator.py:98-130 | the recorded zone becomes the zone of the position, and the alert is `TransitionAlert` from the old to the new recorded zone |
| Generator.RtlsGenerator.UpdateTagPosition | src/rtls_generator.py:77-133 | the battery drops by one but not below 0 when the drain fires; the RSSI moves by the draw and is clamped to [-90, -40]; assets move only on their trigger and other types always, with the ceiling of their type; the zone is recomputed and the tick's alert is the transition alert; the timestamp is the tick's; operating range, zone consistency and known zone ids are preserved |
| Generator.RtlsGenerator.GetLocationUpdate | src/rtls_generator.py:178-184 | none exactly for an unknown id; otherwise the snapshot of that tag, which carries the id asked for |
| Generator.RtlsGenerator.GetAllTags | src/rtls_generator.py:186-188 | every tag once, in insertion order, and nothing else |
| Generator.RtlsGenerator.AllTagsCovered | src/rtls_generator.py:186-188 | the key order and the registry have the same size, and every registered tag is listed |
| Generator.RtlsGenerator.GetTagsInZone | src/rtls_generator.py:190-192 | exactly the tags whose recorded zone is the id, each once, in insertion order; with consistent zones, exactly the tags positioned in that zone; an id naming no zone yields nothing while recorded ids are known |
| Generator.RtlsGenerator.SimulateAnomaly | src/rtls_generator.py:194-208 | each anomaly sets its own field only (battery to the draw in [5, 15], RSSI to the draw in [-85, -80], speed to twice the maximum, x and y to -10); an unknown id or anomaly changes nothing; known zone ids stay known |
| Generator.RtlsGenerator.ConsistentZonesAreKnown | src/rtls_generator.py:98-130 | recorded zones that match the positions name configured zones |
| Scenarios.BoxBoundaries | tests/test_rtls_generator.py:62-82 | the 10×10×5 box contains its interior point and both corners, and none of the three points just outside |
| Scenarios.DistanceExamples | tests/test_rtls_generator.py:85-96 | (0,0,0) is at squared distance 25 from (3,4,0) and from (0,0,5) |
| Scenarios.SiteZones | tests/test_rtls_generator.py:99-107 | (25,25,0) is in zone_1 and (100,100,0) in no zone; zone_1 is found by id and an unknown id is not |
| Scenarios.HeadingNormalisation | src/rtls_generator.py:143 | a heading of -10 degrees normalises to 350 |
| Scenarios.FixtureRegistry | tests/test_rtls_generator.py:55-59 | the test configuration registers exactly tag_001, in zone_1, at rest, with battery 100 and RSSI -70 |
| Scenarios.WalkingEast | tests/test_rtls_generator.py:190-205 | a person heading east at 2 m/s from the site's middle ends a one-second step further east, with speed in [0, 5] |
| Scenarios.LeavingTheSite | tests/test_rtls_generator.py:128-139 | a zone_1 tag moved to (100,100) is in no zone after a 0.1 s step, and the tick reports its exit from zone_1 |

## Left out

- The MQTT client, the entry point, the example scripts, `to_json` and `SystemStatus` are not part of this model. They are transport and presentation around the engine.
- `_init_zones` and the parsing of the configuration dictionary are not modelled. The zones arrive as an ordered sequence, the movement settings as `MovementConfig`, and the tags as `TagConfig` records.
- Floating point: coordinates, speeds and headings are exact reals. IEEE rounding is not modelled, including the corner case where a tiny negative heading gives 360.0 under `% 360`, and `round` on binary fractions such as 2.675.
- Trigonometry: `math.cos`/`math.sin` of the new heading are supplied by the caller. The model only asks that they form a unit vector, and only in the lemmas that need it.
- Models.Position.SquaredDistanceTo: models `distance_to` without its square root, since square roots are not available on reals here.
- Random draws are parameters. Their order of consumption from the generator's random stream is not modelled.
- The clock: a tick reads `utcnow` up to three times (for an exit alert, for an entry alert, and for `last_update`). The model uses one `Instant` for all of them. The ISO text form of timestamps is not modelled.
- Generator.RtlsGenerator.UpdateTagPosition: does not require the draws to lie in their ranges, so the step bounds that need them are lemmas under `DrawsInRange` rather than part of its contract.
- Position aliasing: each tag owns its position, which is modelled as a value that the tag's field is reassigned to. Sharing one `Position` object between tags is not modelled.
