/**
 * The concrete expectations of the generator's test suite, stated over the
 * model: a one-zone site 50 m square and one person tag in its middle.
 */
module Scenarios {
  import opened Wrappers
  import opened Numeric
  import opened Models
  import opened Zones
  import opened Motion
  import opened Generator

  const ZoneOne := Zone("zone_1", "Zone 1", 0.0, 50.0, 0.0, 50.0, 0.0, 5.0)
  const Site := [ZoneOne]
  const SiteMovement := MovementConfig(5.0, 0.5, 45.0)
  const PersonTag := TagConfig("tag_001", "Test Tag", "person", 25.0, 25.0, Some(0.0), Some(100))

  /** A 10 × 10 × 5 box contains its interior and its corners, and no point just outside a face. */
  lemma BoxBoundaries()
    ensures var z := Zone("test_zone", "Test Zone", 0.0, 10.0, 0.0, 10.0, 0.0, 5.0);
            && z.Contains(Position(5.0, 5.0, 2.0))
            && z.Contains(Position(0.0, 0.0, 0.0))
            && z.Contains(Position(10.0, 10.0, 5.0))
            && !z.Contains(Position(-1.0, 5.0, 2.0))
            && !z.Contains(Position(5.0, 11.0, 2.0))
            && !z.Contains(Position(5.0, 5.0, 6.0))
  {
  }

  /** The 3-4-5 triangle and the vertical 5 m offset are both at squared distance 25. */
  lemma DistanceExamples()
    ensures Position(0.0, 0.0, 0.0).SquaredDistanceTo(Position(3.0, 4.0, 0.0)) == 25.0
    ensures Position(0.0, 0.0, 0.0).SquaredDistanceTo(Position(0.0, 0.0, 5.0)) == 25.0
  {
  }

  /** The middle of the site is in zone_1; a point far outside is in no zone. */
  lemma SiteZones()
    ensures CurrentZone(Site, Position(25.0, 25.0, 0.0)) == Some("zone_1")
    ensures CurrentZone(Site, Position(100.0, 100.0, 0.0)).None?
    ensures ZoneById(Site, "zone_1") == Some(ZoneOne)
    ensures ZoneById(Site, "non_existent_zone").None?
  {
    assert ZoneOne.Contains(Position(25.0, 25.0, 0.0));
  }

  /** A heading of -10 degrees normalises to 350. */
  lemma HeadingNormalisation()
    ensures Mod360(-10.0) == 350.0
  {
    assert (-10.0 / 360.0).Floor == -1;
  }

  /**
   * The fixture's registry has exactly one tag, filed under "tag_001", starting
   * in zone_1 at rest with the default signal.
   */
  lemma FixtureRegistry(heading: real)
    ensures var r := RegistryOf(Site, [PersonTag], [heading]);
            && r.Keys == {"tag_001"}
            && r["tag_001"].zoneId == Some("zone_1")
            && r["tag_001"].speed == 0.0 && r["tag_001"].rssi == -70 && r["tag_001"].battery == 100
    ensures KeyOrder([PersonTag]) == ["tag_001"]
  {
    assert [PersonTag][..0] == [];
    assert ZoneOne.Contains(Position(25.0, 25.0, 0.0));
  }

  /**
   * A person walking east at 2 m/s from the middle of the site, whose new
   * heading still points east (positive cosine), ends a one-second step
   * further east, at a speed within the 5 m/s ceiling.
   */
  lemma WalkingEast(d: MotionDraws)
    requires DrawsInRange(SiteMovement, 1.0, d)
    requires d.cosHeading > 0.0
    ensures var r := Step(Site, Kinematics(Position(25.0, 25.0, 0.0), 2.0, 0.0), "person", 1.0, 5.0, d);
            r.position.x > 25.0 && 0.0 <= r.speed <= 5.0
  {
    var k := Kinematics(Position(25.0, 25.0, 0.0), 2.0, 0.0);
    assert FirstContaining(Site, k.position) == Some(0) by {
      assert ZoneOne.Contains(k.position);
    }
    var speed := Clamp(2.0 + d.speedChange, 0.0, 5.0);
    assert 1.5 <= speed <= 2.5;
    UnitComponent(d.cosHeading, d.sinHeading);
    ComponentTravel(speed, 2.5, d.cosHeading, 1.0);
    assert Travel(speed, d.cosHeading, 1.0) > 0.0 by {
      ProductNonNegative(speed - 1.5, d.cosHeading);
      assert speed * d.cosHeading >= 1.5 * d.cosHeading;
    }
    var cx := 25.0 + Travel(speed, d.cosHeading, 1.0);
    assert 25.0 < cx <= 27.5;
    assert Step(Site, k, "person", 1.0, 5.0, d).position.x == Clamp(cx, 0.0, 50.0);
  }

  /**
   * A person tag of zone_1 that is moved out to (100, 100) is, after a 0.1 s
   * step with draws in range, in no zone, and the tick reports its exit from
   * zone_1.
   */
  lemma LeavingTheSite(speed: real, heading: real, d: MotionDraws, now: Instant)
    requires DrawsInRange(SiteMovement, 0.1, d)
    ensures var r := Step(Site, Kinematics(Position(100.0, 100.0, 0.0), speed, heading), "person", 0.1, 2.0, d);
            && CurrentZone(Site, r.position).None?
            && TransitionAlert(Site, "tag_001", "Test Tag", Some("zone_1"), CurrentZone(Site, r.position), now)
               == Some(ZoneAlert("tag_001", "Test Tag", now, Exited, "zone_1", "Zone 1"))
  {
    var k := Kinematics(Position(100.0, 100.0, 0.0), speed, heading);
    StepTravelBounded(Site, k, "person", 0.1, 2.0, SiteMovement, d);
    var r := Step(Site, k, "person", 0.1, 2.0, d);
    assert r.position.x >= 99.8;
    assert !ZoneOne.Contains(r.position);
    assert ZoneById(Site, "zone_1") == Some(ZoneOne);
  }
}
