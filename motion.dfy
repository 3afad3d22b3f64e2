/**
 * One kinematic step of a tag, as a function of the random draws that the
 * generator takes from Python's `random` module. This is the specification
 * that the in-place `MoveTag` of the generator is proved against.
 */
module Motion {
  import opened Wrappers
  import opened Numeric
  import opened Models
  import opened Zones

  /** The global movement parameters of the configuration. */
  datatype MovementConfig = MovementConfig(maxSpeed: real, acceleration: real, turnRate: real)

  /**
   * The draws of one kinematic step: the heading and speed increments, the
   * cosine and sine of the new heading (the trigonometry of the source is
   * supplied by the caller), and the vertical jitter of a person.
   */
  datatype MotionDraws = MotionDraws(
    headingChange: real,
    speedChange: real,
    cosHeading: real,
    sinHeading: real,
    jitter: bool,
    jitterAmount: real)

  /**
   * The ranges the draws come from: `uniform(-turn_rate, turn_rate) * dt`,
   * `uniform(-acceleration, acceleration) * dt`, a unit direction vector and
   * `uniform(-0.1, 0.1)`.
   */
  predicate DrawsInRange(cfg: MovementConfig, dt: real, d: MotionDraws) {
    && Abs(d.headingChange) <= Abs(cfg.turnRate * dt)
    && Abs(d.speedChange) <= Abs(cfg.acceleration * dt)
    && d.cosHeading * d.cosHeading + d.sinHeading * d.sinHeading == 1.0
    && -0.1 <= d.jitterAmount <= 0.1
  }

  /** The part of a tag's state that a step changes. */
  datatype Kinematics = Kinematics(position: Position, speed: real, heading: real)

  /**
   * The speed ceiling the generator passes for a tag type: 1.0 for assets,
   * the configured maximum for vehicles, and 2.0 for every other type.
   */
  function ProfileMaxSpeed(kind: string, cfg: MovementConfig): (r: real)
    ensures kind == "asset" ==> r == 1.0
    ensures kind == "vehicle" ==> r == cfg.maxSpeed
    ensures kind != "asset" && kind != "vehicle" ==> r == 2.0
  {
    if kind == "asset" then 1.0
    else if kind == "vehicle" then cfg.maxSpeed
    else 2.0
  }

  /** Only assets are gated: they step when their trigger fires, every other type steps every tick. */
  predicate MovesThisTick(kind: string, assetTrigger: bool)
    ensures kind != "asset" ==> MovesThisTick(kind, assetTrigger)
    ensures kind == "asset" ==> (MovesThisTick(kind, assetTrigger) <==> assetTrigger)
  {
    kind != "asset" || assetTrigger
  }

  /**
   * The heading after the wall bounce in `zone` of a tag whose candidate
   * position is (cx, cy): reflected about the vertical axis when cx reaches
   * an x wall, then about the horizontal axis when cy reaches a y wall.
   */
  function BounceHeading(zone: Zone, heading: real, cx: real, cy: real): (r: real)
    requires 0.0 <= heading < 360.0
    ensures 0.0 <= r < 360.0
  {
    var hx := if cx <= zone.xMin || cx >= zone.xMax then Mod360(180.0 - heading) else heading;
    if cy <= zone.yMin || cy >= zone.yMax then Mod360(-hx) else hx
  }

  /**
   * The displacement along one axis of a move at `speed` for `dt`, given that
   * axis's component of the unit direction: never more than speed·|dt|.
   */
  function Travel(speed: real, component: real, dt: real): (r: real)
    ensures 0.0 <= speed && -1.0 <= component <= 1.0 ==> Abs(r) <= speed * Abs(dt)
  {
    ProductBound(speed, component, dt);
    speed * component * dt
  }

  /** A non-negative speed times a component in [-1, 1] times dt is at most speed·|dt| in size. */
  lemma ProductBound(speed: real, c: real, dt: real)
    ensures 0.0 <= speed && -1.0 <= c <= 1.0 ==> Abs(speed * c * dt) <= speed * Abs(dt)
  {
    if 0.0 <= speed && -1.0 <= c <= 1.0 {
      var v := speed * c;
      ProductNonNegative(speed, 1.0 - c);
      ProductNonNegative(speed, 1.0 + c);
      assert -speed <= v <= speed;
      var t := Abs(dt);
      ProductNonNegative(speed - v, t);
      ProductNonNegative(speed + v, t);
      assert -(speed * t) <= v * t <= speed * t;
      if dt >= 0.0 {
        assert speed * c * dt == v * t;
      } else {
        assert speed * c * dt == -(v * t);
      }
    }
  }

  /**
   * One step: turn and renormalise the heading, change and clamp the speed,
   * advance by speed·dt along the new heading, bounce off the walls of the
   * first zone that contained the tag before the step, and, for a person,
   * jitter the height within [0, 2].
   */
  function Step(zones: seq<Zone>, k: Kinematics, kind: string, dt: real, maxSpeed: real,
                d: MotionDraws): (r: Kinematics)
    ensures 0.0 <= r.speed <= Max(0.0, maxSpeed)
    ensures 0.0 <= r.heading < 360.0
  {
    var heading := Mod360(k.heading + d.headingChange);
    var speed := Clamp(k.speed + d.speedChange, 0.0, maxSpeed);
    var cx := k.position.x + Travel(speed, d.cosHeading, dt);
    var cy := k.position.y + Travel(speed, d.sinHeading, dt);
    var z := if kind == "person" && d.jitter then Clamp(k.position.z + d.jitterAmount, 0.0, 2.0)
             else k.position.z;
    match FirstContaining(zones, k.position)
    case None => Kinematics(Position(cx, cy, z), speed, heading)
    case Some(i) =>
      var zone := zones[i];
      Kinematics(Position(Clamp(cx, zone.xMin, zone.xMax), Clamp(cy, zone.yMin, zone.yMax), z),
                 speed, BounceHeading(zone, heading, cx, cy))
  }

  /**
   * A tag that starts the step inside some zone ends it within the x and y
   * walls of the first such zone; if its height is not jittered it is still
   * inside that zone, so the containment search still finds a zone.
   */
  lemma StepStaysWithinWalls(zones: seq<Zone>, k: Kinematics, kind: string, dt: real, maxSpeed: real,
                             d: MotionDraws, i: nat)
    requires FirstContaining(zones, k.position) == Some(i)
    ensures var r := Step(zones, k, kind, dt, maxSpeed, d);
            && zones[i].xMin <= r.position.x <= zones[i].xMax
            && zones[i].yMin <= r.position.y <= zones[i].yMax
            && (r.position.z == k.position.z ==>
                  (zones[i].Contains(r.position) && CurrentZone(zones, r.position).Some?))
  {
    var r := Step(zones, k, kind, dt, maxSpeed, d);
    if r.position.z == k.position.z {
      assert zones[i].Contains(r.position);
    }
  }

  /** A tag outside every zone moves freely: its new x and y are the old ones plus speed·dt along the heading. */
  lemma StepUnconstrainedOutsideZones(zones: seq<Zone>, k: Kinematics, kind: string, dt: real, maxSpeed: real,
                                      d: MotionDraws)
    requires forall j :: 0 <= j < |zones| ==> !zones[j].Contains(k.position)
    ensures var r := Step(zones, k, kind, dt, maxSpeed, d);
            && r.position.x == k.position.x + Travel(r.speed, d.cosHeading, dt)
            && r.position.y == k.position.y + Travel(r.speed, d.sinHeading, dt)
            && r.heading == Mod360(k.heading + d.headingChange)
  {
  }

  /**
   * Reaching the right-hand wall of the zone the tag is in, without reaching a
   * y wall, leaves the tag on that wall with its heading mirrored about the
   * vertical axis.
   */
  lemma StepReflectsAtRightWall(zones: seq<Zone>, k: Kinematics, kind: string, dt: real, maxSpeed: real,
                                d: MotionDraws, i: nat)
    requires FirstContaining(zones, k.position) == Some(i)
    requires var r := Step(zones, k, kind, dt, maxSpeed, d);
             && k.position.x + Travel(r.speed, d.cosHeading, dt) >= zones[i].xMax
             && zones[i].yMin < k.position.y + Travel(r.speed, d.sinHeading, dt) < zones[i].yMax
    ensures var r := Step(zones, k, kind, dt, maxSpeed, d);
            && r.position.x == zones[i].xMax
            && r.heading == Mod360(180.0 - Mod360(k.heading + d.headingChange))
  {
  }

  /**
   * The mirror case on the y axis: a step that would carry the tag to or
   * past the top wall of its zone, while its x stays strictly between the x
   * walls, leaves the tag on that wall with its heading negated.
   */
  lemma StepReflectsAtTopWall(zones: seq<Zone>, k: Kinematics, kind: string, dt: real, maxSpeed: real,
                              d: MotionDraws, i: nat)
    requires FirstContaining(zones, k.position) == Some(i)
    requires var r := Step(zones, k, kind, dt, maxSpeed, d);
             && k.position.y + Travel(r.speed, d.sinHeading, dt) >= zones[i].yMax
             && zones[i].xMin < k.position.x + Travel(r.speed, d.cosHeading, dt) < zones[i].xMax
    ensures var r := Step(zones, k, kind, dt, maxSpeed, d);
            && r.position.y == zones[i].yMax
            && r.heading == Mod360(-Mod360(k.heading + d.headingChange))
  {
  }

  /** The height changes only for the type "person", and then stays within [0, 2]. */
  lemma StepVertical(zones: seq<Zone>, k: Kinematics, kind: string, dt: real, maxSpeed: real, d: MotionDraws)
    ensures var r := Step(zones, k, kind, dt, maxSpeed, d);
            && (kind != "person" || !d.jitter ==> r.position.z == k.position.z)
            && (kind == "person" && d.jitter ==> 0.0 <= r.position.z <= 2.0)
  {
  }

  /**
   * With a speed ceiling of 0 the tag stops and keeps its x and y, whether or
   * not it is in a zone; unless its height is jittered it stays where it is.
   */
  lemma StepAtZeroCeiling(zones: seq<Zone>, k: Kinematics, kind: string, dt: real, d: MotionDraws)
    ensures var r := Step(zones, k, kind, dt, 0.0, d);
            && r.speed == 0.0 && r.position.x == k.position.x && r.position.y == k.position.y
            && (kind != "person" || !d.jitter ==> r.position == k.position)
  {
    match FirstContaining(zones, k.position)
    case None =>
    case Some(i) =>
      assert zones[i].Contains(k.position);
  }

  /** A component of a unit direction vector lies in [-1, 1]. */
  lemma UnitComponent(c: real, s: real)
    requires c * c + s * s == 1.0
    ensures -1.0 <= c <= 1.0
  {
    assert s * s >= 0.0;
  }

  lemma ProductNonNegative(a: real, b: real)
    requires 0.0 <= a && 0.0 <= b
    ensures 0.0 <= a * b
  {
  }

  /** Moving at `speed` for `dt` along one unit component covers at most `ceiling`·|dt|. */
  lemma ComponentTravel(speed: real, ceiling: real, c: real, dt: real)
    requires 0.0 <= speed <= ceiling
    requires -1.0 <= c <= 1.0
    ensures Abs(Travel(speed, c, dt)) <= ceiling * Abs(dt)
  {
    ProductNonNegative(ceiling - speed, Abs(dt));
  }

  /** Clamping to a range that holds `x` never moves a value further from `x`. */
  lemma ClampNoFurther(v: real, x: real, lo: real, hi: real)
    requires lo <= x <= hi
    ensures Abs(Clamp(v, lo, hi) - x) <= Abs(v - x)
  {
  }

  /**
   * With draws from their ranges, a step never carries the tag further than
   * the speed ceiling times the elapsed time along either horizontal axis:
   * the free move is bounded by it, and the wall clamp only shortens it.
   */
  lemma StepTravelBounded(zones: seq<Zone>, k: Kinematics, kind: string, dt: real, maxSpeed: real,
                          cfg: MovementConfig, d: MotionDraws)
    requires DrawsInRange(cfg, dt, d)
    requires 0.0 <= maxSpeed
    ensures var r := Step(zones, k, kind, dt, maxSpeed, d);
            && Abs(r.position.x - k.position.x) <= maxSpeed * Abs(dt)
            && Abs(r.position.y - k.position.y) <= maxSpeed * Abs(dt)
  {
    var speed := Clamp(k.speed + d.speedChange, 0.0, maxSpeed);
    var cx := k.position.x + Travel(speed, d.cosHeading, dt);
    var cy := k.position.y + Travel(speed, d.sinHeading, dt);
    UnitComponent(d.cosHeading, d.sinHeading);
    UnitComponent(d.sinHeading, d.cosHeading);
    ComponentTravel(speed, maxSpeed, d.cosHeading, dt);
    ComponentTravel(speed, maxSpeed, d.sinHeading, dt);
    assert Abs(cx - k.position.x) <= maxSpeed * Abs(dt);
    assert Abs(cy - k.position.y) <= maxSpeed * Abs(dt);
    var r := Step(zones, k, kind, dt, maxSpeed, d);
    match FirstContaining(zones, k.position)
    case None =>
      assert r.position.x == cx && r.position.y == cy;
    case Some(i) =>
      var zone := zones[i];
      assert r.position.x == Clamp(cx, zone.xMin, zone.xMax) && r.position.y == Clamp(cy, zone.yMin, zone.yMax);
      ClampNoFurther(cx, k.position.x, zone.xMin, zone.xMax);
      ClampNoFurther(cy, k.position.y, zone.yMin, zone.yMax);
  }

  /**
   * With draws from their ranges and a speed already within [0, ceiling], the
   * speed changes by at most acceleration·|dt| in one step.
   */
  lemma StepSpeedChangeBounded(zones: seq<Zone>, k: Kinematics, kind: string, dt: real, maxSpeed: real,
                               cfg: MovementConfig, d: MotionDraws)
    requires DrawsInRange(cfg, dt, d)
    requires 0.0 <= k.speed <= maxSpeed
    ensures Abs(Step(zones, k, kind, dt, maxSpeed, d).speed - k.speed) <= Abs(cfg.acceleration * dt)
  {
  }
}
