/**
 * The record types of the location system: positions, box-shaped zones, tags,
 * the location snapshot sent downstream and the zone alert.
 */
module Models {
  import opened Wrappers
  import opened Numeric

  /** A reading of the wall clock (the source's UTC datetime; its ISO text form is not modelled). */
  type Instant = int

  /** A point in metres; a position built from x and y only sits at height 0. */
  datatype Position = Position(x: real, y: real, z: real := 0.0) {

    /**
     * The square of the Euclidean distance to `other` (the source's
     * `distance_to` before its square root).
     */
    function SquaredDistanceTo(other: Position): (d: real)
      ensures d >= 0.0
    {
      (x - other.x) * (x - other.x) + (y - other.y) * (y - other.y) + (z - other.z) * (z - other.z)
    }
  }

  /** The distance is symmetric and vanishes from a point to itself. */
  lemma DistanceSymmetric(a: Position, b: Position)
    ensures a.SquaredDistanceTo(b) == b.SquaredDistanceTo(a)
    ensures a.SquaredDistanceTo(a) == 0.0
  {
  }

  /** An axis-aligned box with an identity and a display name. */
  datatype Zone = Zone(id: string, name: string,
                       xMin: real, xMax: real,
                       yMin: real, yMax: real,
                       zMin: real, zMax: real)
  {
    /** Containment is inclusive on all six faces; only a box with ordered bounds contains anything. */
    predicate Contains(p: Position)
      ensures Contains(p) ==> xMin <= xMax && yMin <= yMax && zMin <= zMax
      ensures p.x == xMin && p.y == yMin && p.z == zMin && xMin <= xMax && yMin <= yMax && zMin <= zMax ==>
                Contains(p)
    {
      xMin <= p.x <= xMax && yMin <= p.y <= yMax && zMin <= p.z <= zMax
    }
  }

  /**
   * A box that contains some point has ordered bounds, and then every corner
   * is inside it while any point beyond a face is not.
   */
  lemma ContainsBoundaryInclusive(zone: Zone, p: Position, q: Position)
    requires zone.Contains(p)
    ensures zone.xMin <= zone.xMax && zone.yMin <= zone.yMax && zone.zMin <= zone.zMax
    ensures zone.Contains(Position(zone.xMin, zone.yMin, zone.zMin))
    ensures zone.Contains(Position(zone.xMax, zone.yMax, zone.zMax))
    ensures (q.x < zone.xMin || q.x > zone.xMax || q.y < zone.yMin || q.y > zone.yMax ||
             q.z < zone.zMin || q.z > zone.zMax) ==> !zone.Contains(q)
  {
  }

  /**
   * A simulated tag. Its identity, name and type never change; everything else
   * is overwritten in place by the simulation engine.
   */
  class Tag {
    const id: string
    const name: string
    const kind: string
    var position: Position
    var speed: real
    var heading: real
    var battery: int
    var rssi: int
    var lastUpdate: Option<Instant>
    var zoneId: Option<string>

    /** The record constructor, with the source's defaults for the optional fields. */
    constructor (id: string, name: string, kind: string, position: Position,
                 speed: real := 0.0, heading: real := 0.0, battery: int := 100, rssi: int := -70,
                 lastUpdate: Option<Instant> := None, zoneId: Option<string> := None)
      ensures this.id == id && this.name == name && this.kind == kind && this.position == position
      ensures this.speed == speed && this.heading == heading
      ensures this.battery == battery && this.rssi == rssi
      ensures this.lastUpdate == lastUpdate && this.zoneId == zoneId
    {
      this.id := id;
      this.name := name;
      this.kind := kind;
      this.position := position;
      this.speed := speed;
      this.heading := heading;
      this.battery := battery;
      this.rssi := rssi;
      this.lastUpdate := lastUpdate;
      this.zoneId := zoneId;
    }
  }

  /** The rounded coordinates carried by a location update. */
  datatype Location = Location(x: real, y: real, z: real)

  datatype LocationUpdate = LocationUpdate(
    tagId: string,
    timestamp: Instant,
    location: Location,
    zoneId: Option<string>,
    speed: real,
    heading: real,
    battery: int,
    rssi: int)

  /**
   * The snapshot of a tag at `now`: coordinates and speed rounded to two
   * decimals, heading to one, identity, zone, battery and signal copied.
   */
  function FromTag(tag: Tag, now: Instant): (u: LocationUpdate)
    reads tag
    ensures u.tagId == tag.id && u.timestamp == now && u.zoneId == tag.zoneId
    ensures u.battery == tag.battery && u.rssi == tag.rssi
    ensures Abs(u.location.x - tag.position.x) <= 0.005
    ensures Abs(u.location.y - tag.position.y) <= 0.005
    ensures Abs(u.location.z - tag.position.z) <= 0.005
    ensures Abs(u.speed - tag.speed) <= 0.005
    ensures Abs(u.heading - tag.heading) <= 0.05
  {
    assert Pow10(1) == 10 && Pow10(2) == 100;
    LocationUpdate(
      tag.id,
      now,
      Location(Round(tag.position.x, 2), Round(tag.position.y, 2), Round(tag.position.z, 2)),
      tag.zoneId,
      Round(tag.speed, 2),
      Round(tag.heading, 1),
      tag.battery,
      tag.rssi)
  }

  /**
   * Apart from its timestamp, a snapshot depends only on the tag's state: two
   * snapshots taken with no change in between agree on every other field.
   */
  lemma FromTagIgnoresClock(tag: Tag, t1: Instant, t2: Instant)
    ensures FromTag(tag, t1).(timestamp := t2) == FromTag(tag, t2)
  {
  }

  datatype AlertEvent = Entered | Exited

  /** A zone transition of one tag. */
  datatype ZoneAlert = ZoneAlert(
    tagId: string,
    tagName: string,
    timestamp: Instant,
    eventType: AlertEvent,
    zoneId: string,
    zoneName: string)
}
