/**
 * The simulation engine: the tag registry built from the configuration, the
 * per-tick update of one tag (battery, signal, movement, zone tracking and
 * the zone alert), the read-only queries over the registry, and the fault
 * injection used for demonstrations.
 */
module Generator {
  import opened Wrappers
  import opened Numeric
  import opened Models
  import opened Zones
  import opened Motion

  /** One entry of the configured tag list; the height and the battery level may be omitted. */
  datatype TagConfig = TagConfig(id: string, name: string, kind: string, x: real, y: real,
                                 z: Option<real>, battery: Option<int>)

  /**
   * The random draws of one tick: whether the battery drains (probability
   * 0.001), the signal step in [-5, 5], whether an asset moves this tick
   * (probability 0.01), and the draws of the step itself.
   */
  datatype TickDraws = TickDraws(drain: bool, rssiDelta: int, assetTrigger: bool, motion: MotionDraws)

  /** The part of a tag's state that a step changes. */
  function KinematicsOf(t: Tag): Kinematics
    reads t
  {
    Kinematics(t.position, t.speed, t.heading)
  }

  /**
   * The keys of a dict filled by assigning each config under its id, in the
   * dict's iteration order: an id is placed where it first occurs and a
   * repeated id does not move it.
   */
  function KeyOrder(configs: seq<TagConfig>): (r: seq<string>)
    ensures |r| <= |configs|
  {
    if configs == [] then []
    else
      var prev := KeyOrder(configs[..|configs| - 1]);
      var id := configs[|configs| - 1].id;
      if id in prev then prev else prev + [id]
  }

  /** The key order lists every configured id, and each only once. */
  lemma {:induction false} KeyOrderKeys(configs: seq<TagConfig>)
    ensures var r := KeyOrder(configs);
            && (forall i, j :: 0 <= i < j < |r| ==> r[i] != r[j])
            && (forall k :: k in r <==> LastIndexOf(configs, k).Some?)
  {
    if configs != [] {
      var init, id := configs[..|configs| - 1], configs[|configs| - 1].id;
      KeyOrderKeys(init);
      var prev := KeyOrder(init);
      assert KeyOrder(configs) == if id in prev then prev else prev + [id];
      forall k
        ensures LastIndexOf(configs, k).Some? <==> k == id || LastIndexOf(init, k).Some?
      {
      }
      if id !in prev {
        assert forall i :: 0 <= i < |prev| ==> (prev + [id])[i] == prev[i];
      }
    }
  }

  /** The index of the last config with id `id`: the one whose tag a dict assignment keeps. */
  function LastIndexOf(configs: seq<TagConfig>, id: string): (r: Option<nat>)
    ensures r.Some? ==> r.value < |configs| && configs[r.value].id == id
    ensures r.Some? ==> forall j :: r.value < j < |configs| ==> configs[j].id != id
    ensures r.None? <==> forall j :: 0 <= j < |configs| ==> configs[j].id != id
  {
    if configs == [] then None
    else if configs[|configs| - 1].id == id then Some(|configs| - 1)
    else LastIndexOf(configs[..|configs| - 1], id)
  }

  /** When no id repeats, the registry keeps the configuration order. */
  lemma {:induction false} KeyOrderOfDistinct(configs: seq<TagConfig>)
    requires forall i, j :: 0 <= i < j < |configs| ==> configs[i].id != configs[j].id
    ensures |KeyOrder(configs)| == |configs|
    ensures forall i :: 0 <= i < |configs| ==> KeyOrder(configs)[i] == configs[i].id
  {
    if configs != [] {
      var init := configs[..|configs| - 1];
      KeyOrderOfDistinct(init);
      KeyOrderKeys(init);
      assert LastIndexOf(init, configs[|configs| - 1].id).None?;
    }
  }

  /** A distinct sequence has as many elements as the set of its elements. */
  lemma {:induction false} DistinctCardinality(s: seq<string>)
    requires forall i, j :: 0 <= i < j < |s| ==> s[i] != s[j]
    ensures |set k | k in s| == |s|
  {
    if s != [] {
      DistinctCardinality(s[1..]);
      assert (set k | k in s) == (set k | k in s[1..]) + {s[0]};
      assert s[0] !in (set k | k in s[1..]);
    }
  }

  /** The tags under `keys`, in the order of `keys`. */
  function TagsOf(keys: seq<string>, tags: map<string, Tag>): (r: seq<Tag>)
    requires forall k :: k in keys ==> k in tags
    ensures |r| == |keys|
    ensures forall i :: 0 <= i < |keys| ==> r[i] == tags[keys[i]]
  {
    if keys == [] then [] else [tags[keys[0]]] + TagsOf(keys[1..], tags)
  }

  /** `r` is `s` with some elements dropped and the others kept in their order. */
  predicate IsSublist<T(==)>(r: seq<T>, s: seq<T>) {
    if r == [] then true
    else if s == [] then false
    else (r[0] == s[0] && IsSublist(r[1..], s[1..])) || IsSublist(r, s[1..])
  }

  /**
   * The tags of `tags` whose recorded zone is `zoneId`, in the order of
   * `tags`, each as often as it is listed there.
   */
  function Occupants(tags: seq<Tag>, zoneId: string): (r: seq<Tag>)
    reads tags
    ensures |r| <= |tags|
    ensures IsSublist(r, tags)
    ensures forall t :: t in r ==> t in tags && t.zoneId == Some(zoneId)
    ensures forall t :: t in tags && t.zoneId == Some(zoneId) ==> t in r
    ensures (forall i, j :: 0 <= i < j < |tags| ==> tags[i] != tags[j]) ==>
              forall i, j :: 0 <= i < j < |r| ==> r[i] != r[j]
  {
    if tags == [] then []
    else if tags[0].zoneId == Some(zoneId) then [tags[0]] + Occupants(tags[1..], zoneId)
    else Occupants(tags[1..], zoneId)
  }

  /** Every field of a tag, as a value. */
  datatype TagState = TagState(id: string, name: string, kind: string, position: Position,
                               speed: real, heading: real, battery: int, rssi: int,
                               lastUpdate: Option<Instant>, zoneId: Option<string>)

  function StateOf(t: Tag): TagState
    reads t
  {
    TagState(t.id, t.name, t.kind, t.position, t.speed, t.heading, t.battery, t.rssi, t.lastUpdate, t.zoneId)
  }

  /**
   * The tag the registry builds from config `c` with initial heading
   * `heading`: identity and position from the config (height 0 and battery
   * 100 when omitted), the record defaults for speed, signal and last update,
   * and the zone found by the containment search.
   */
  function InitialState(zones: seq<Zone>, c: TagConfig, heading: real): (r: TagState)
    ensures r.id == c.id && r.name == c.name && r.kind == c.kind && r.heading == heading
    ensures r.position.x == c.x && r.position.y == c.y
    ensures r.position.z == if c.z.Some? then c.z.value else 0.0
    ensures (c.battery.None? ==> r.battery == 100) && (c.battery.Some? ==> r.battery == c.battery.value)
    ensures r.speed == 0.0 && r.rssi == -70 && r.lastUpdate.None?
  {
    var p := Position(c.x, c.y, c.z.GetOr(0.0));
    TagState(c.id, c.name, c.kind, p, 0.0, heading, c.battery.GetOr(100), -70, None, CurrentZone(zones, p))
  }

  /** A fresh tag for config `c`, with its zone set by the containment search. */
  method NewTag(zones: seq<Zone>, c: TagConfig, heading: real) returns (tag: Tag)
    ensures fresh(tag) && StateOf(tag) == InitialState(zones, c, heading)
  {
    var position := Position(c.x, c.y, c.z.GetOr(0.0));
    tag := new Tag(c.id, c.name, c.kind, position, battery := c.battery.GetOr(100), heading := heading);
    tag.zoneId := GetCurrentZone(zones, position);
  }

  /**
   * The states in the dict after assigning, config by config, the initial
   * tag of each under its id: the tag of the last config with an id wins.
   */
  function RegistryOf(zones: seq<Zone>, configs: seq<TagConfig>, headings: seq<real>): (r: map<string, TagState>)
    requires |headings| == |configs|
    ensures forall k :: k in r ==> r[k].id == k
  {
    if configs == [] then map[]
    else
      var n := |configs| - 1;
      RegistryOf(zones, configs[..n], headings[..n])[configs[n].id := InitialState(zones, configs[n], headings[n])]
  }

  /** The registry has a tag for exactly the configured ids, each built from the last config with that id. */
  lemma {:induction false} RegistryLastWins(zones: seq<Zone>, configs: seq<TagConfig>, headings: seq<real>)
    requires |headings| == |configs|
    ensures var r := RegistryOf(zones, configs, headings);
            && (forall k :: k in r <==> LastIndexOf(configs, k).Some?)
            && (forall k :: k in r ==>
                  var n := LastIndexOf(configs, k).value;
                  r[k] == InitialState(zones, configs[n], headings[n]))
  {
    if configs != [] {
      var n := |configs| - 1;
      RegistryLastWins(zones, configs[..n], headings[..n]);
    }
  }

  /** The configured batteries are percentages and the drawn initial headings lie in [0, 360]. */
  predicate ConfiguredInRange(configs: seq<TagConfig>, headings: seq<real>)
    requires |headings| == |configs|
  {
    forall n :: 0 <= n < |configs| ==> 0 <= configs[n].battery.GetOr(100) <= 100 && 0.0 <= headings[n] <= 360.0
  }

  /**
   * Every registry entry is filed under its own id, starts at rest with the
   * default signal and the zone of its position, and the key order lists the
   * registry's keys once each; with batteries and headings drawn from their
   * ranges every entry starts within them.
   */
  lemma RegistryEntries(zones: seq<Zone>, configs: seq<TagConfig>, headings: seq<real>)
    requires |headings| == |configs|
    ensures var r := RegistryOf(zones, configs, headings);
            forall k :: k in r ==>
              && r[k].id == k && r[k].speed == 0.0 && r[k].rssi == -70
              && r[k].zoneId == CurrentZone(zones, r[k].position)
    ensures var r := RegistryOf(zones, configs, headings);
            ConfiguredInRange(configs, headings) ==>
              forall k :: k in r ==> 0 <= r[k].battery <= 100 && 0.0 <= r[k].heading <= 360.0
    ensures var order := KeyOrder(configs);
            && (forall i, j :: 0 <= i < j < |order| ==> order[i] != order[j])
            && (forall k :: k in order <==> k in RegistryOf(zones, configs, headings))
  {
    KeyOrderKeys(configs);
    RegistryLastWins(zones, configs, headings);
  }

  /**
   * The tag registry of a configuration, built in place: a fresh tag per
   * config filed under its id, and the keys in the order the dict yields them.
   */
  method InitTags(zones: seq<Zone>, configs: seq<TagConfig>, headings: seq<real>)
    returns (tags: map<string, Tag>, order: seq<string>)
    requires |headings| == |configs|
    ensures order == KeyOrder(configs)
    ensures tags.Keys == RegistryOf(zones, configs, headings).Keys
    ensures forall k :: k in tags ==> fresh(tags[k]) && StateOf(tags[k]) == RegistryOf(zones, configs, headings)[k]
  {
    tags, order := map[], [];
    ghost var registry: map<string, TagState> := map[];
    var n := 0;
    while n < |configs|
      invariant 0 <= n <= |configs|
      invariant order == KeyOrder(configs[..n])
      invariant registry == RegistryOf(zones, configs[..n], headings[..n])
      invariant tags.Keys == registry.Keys
      invariant forall k :: k in tags ==> fresh(tags[k])
      invariant forall k :: k in tags ==> StateOf(tags[k]) == registry[k]
    {
      var c := configs[n];
      var tag := NewTag(zones, c, headings[n]);
      assert forall k :: k in tags ==> StateOf(tags[k]) == registry[k];
      PrefixStep(zones, configs, headings, n);
      KeyedAlike(zones, configs[..n], headings[..n], c.id);
      if c.id !in tags {
        order := order + [c.id];
      }
      tags := tags[c.id := tag];
      registry := RegistryOf(zones, configs[..n + 1], headings[..n + 1]);
      n := n + 1;
    }
    assert configs[..n] == configs && headings[..n] == headings;
  }

  /** An id is among the ordered keys exactly when the registry has an entry for it. */
  lemma KeyedAlike(zones: seq<Zone>, configs: seq<TagConfig>, headings: seq<real>, id: string)
    requires |headings| == |configs|
    ensures id in KeyOrder(configs) <==> id in RegistryOf(zones, configs, headings)
  {
    KeyOrderKeys(configs);
    RegistryLastWins(zones, configs, headings);
  }

  /** Extending the configuration by one entry assigns that entry's tag under its id. */
  lemma PrefixStep(zones: seq<Zone>, configs: seq<TagConfig>, headings: seq<real>, n: nat)
    requires |headings| == |configs| && n < |configs|
    ensures RegistryOf(zones, configs[..n + 1], headings[..n + 1]) ==
            RegistryOf(zones, configs[..n], headings[..n])[configs[n].id := InitialState(zones, configs[n], headings[n])]
    ensures KeyOrder(configs[..n + 1]) ==
            if configs[n].id in KeyOrder(configs[..n]) then KeyOrder(configs[..n])
            else KeyOrder(configs[..n]) + [configs[n].id]
  {
    assert configs[..n + 1][..n] == configs[..n] && headings[..n + 1][..n] == headings[..n];
    assert configs[..n + 1][n] == configs[n] && headings[..n + 1][n] == headings[n];
  }

  /** What the registry's states say about the tags that carry them. */
  lemma TagsMatchRegistry(zones: seq<Zone>, configs: seq<TagConfig>, headings: seq<real>, tags: map<string, Tag>)
    requires |headings| == |configs|
    requires tags.Keys == RegistryOf(zones, configs, headings).Keys
    requires forall k :: k in tags ==> StateOf(tags[k]) == RegistryOf(zones, configs, headings)[k]
    ensures forall k :: k in tags ==> tags[k].id == k && tags[k].speed == 0.0 && tags[k].rssi == -70
    ensures forall t :: t in tags.Values ==> t.zoneId == CurrentZone(zones, t.position)
    ensures ConfiguredInRange(configs, headings) ==>
              forall k :: k in tags ==> 0 <= tags[k].battery <= 100 && 0.0 <= tags[k].heading <= 360.0
    ensures var order := KeyOrder(configs);
            && (forall i, j :: 0 <= i < j < |order| ==> order[i] != order[j])
            && (forall k :: k in order <==> k in tags)
  {
    RegistryEntries(zones, configs, headings);
    var registry := RegistryOf(zones, configs, headings);
    forall k | k in tags
      ensures tags[k].id == k && tags[k].zoneId == CurrentZone(zones, tags[k].position)
    {
      assert StateOf(tags[k]) == registry[k];
    }
    forall t | t in tags.Values
      ensures t.zoneId == CurrentZone(zones, t.position)
    {
      var k :| k in tags && tags[k] == t;
    }
  }

  class RtlsGenerator {
    const zones: seq<Zone>
    const movement: MovementConfig
    /** The keys of the registry in insertion order, the order in which the dict yields its tags. */
    const order: seq<string>
    const tags: map<string, Tag>

    /** Every key appears once in `order`, and each tag is filed under its own id. */
    ghost predicate Valid() {
      && (forall i, j :: 0 <= i < j < |order| ==> order[i] != order[j])
      && (forall k :: k in tags <==> k in order)
      && (forall k :: k in tags ==> tags[k].id == k)
    }

    /** Every tag's recorded zone is the one the containment search finds for its position. */
    ghost predicate ZonesConsistent()
      reads tags.Values
    {
      forall t :: t in tags.Values ==> t.zoneId == CurrentZone(zones, t.position)
    }

    /** Every recorded zone id names a configured zone. */
    ghost predicate ZoneIdsKnown()
      reads tags.Values
    {
      forall t :: t in tags.Values ==> t.zoneId.Some? ==> ZoneById(zones, t.zoneId.value).Some?
    }

    /**
     * The ranges a well-behaved tag stays in: battery percentage, signal
     * strength between -90 and -40 dBm, speed within its type's ceiling, and a
     * heading in degrees. The heading may be exactly 360: the initial heading
     * is drawn with `uniform(0, 360)`, whose upper end is reachable, and it is
     * only normalised into [0, 360) by the first step.
     */
    predicate InOperatingRange(t: Tag)
      reads t
    {
      && 0 <= t.battery <= 100
      && -90 <= t.rssi <= -40
      && 0.0 <= t.speed <= Max(0.0, ProfileMaxSpeed(t.kind, movement))
      && 0.0 <= t.heading <= 360.0
    }

    /**
     * Builds the registry: one fresh tag per config, filed under its id, a
     * later config with the same id replacing the earlier tag but not its
     * place in the order. `headings` are the initial headings drawn from
     * [0, 360], one per config.
     */
    constructor (zoneList: seq<Zone>, movement: MovementConfig, configs: seq<TagConfig>, headings: seq<real>)
      requires |headings| == |configs|
      ensures Valid() && ZonesConsistent()
      ensures zones == zoneList && this.movement == movement
      ensures order == KeyOrder(configs)
      ensures tags.Keys == RegistryOf(zoneList, configs, headings).Keys
      ensures forall k :: k in tags ==> fresh(tags[k]) && StateOf(tags[k]) == RegistryOf(zoneList, configs, headings)[k]
      ensures ConfiguredInRange(configs, headings) ==>
                forall k :: k in tags ==> InOperatingRange(tags[k])
    {
      var m, ord := InitTags(zoneList, configs, headings);
      TagsMatchRegistry(zoneList, configs, headings, m);
      zones := zoneList;
      this.movement := movement;
      order := ord;
      tags := m;
      new;
      if ConfiguredInRange(configs, headings) {
        forall k | k in tags
          ensures InOperatingRange(tags[k])
        {
        }
      }
    }

    /**
     * One kinematic step of `tag`, in place: turn, change speed, advance, and
     * bounce off the walls of the first zone that contains the tag's position
     * before the step; a person's height jitters.
     */
    method MoveTag(tag: Tag, dt: real, maxSpeed: real, d: MotionDraws)
      modifies tag`position, tag`speed, tag`heading
      ensures KinematicsOf(tag) == Step(zones, old(KinematicsOf(tag)), tag.kind, dt, maxSpeed, d)
    {
      tag.heading := Mod360(tag.heading + d.headingChange);
      tag.speed := Clamp(tag.speed + d.speedChange, 0.0, maxSpeed);
      var newX := tag.position.x + Travel(tag.speed, d.cosHeading, dt);
      var newY := tag.position.y + Travel(tag.speed, d.sinHeading, dt);
      var found := FindContainingZone(zones, tag.position);
      if found.Some? {
        tag.heading, newX, newY := BounceOffWalls(zones[found.value], tag.heading, newX, newY);
      }
      tag.position := tag.position.(x := newX, y := newY);
      if tag.kind == "person" && d.jitter {
        tag.position := tag.position.(z := Clamp(tag.position.z + d.jitterAmount, 0.0, 2.0));
      }
    }

    /**
     * The wall check of a step inside `zone`: a candidate x on or beyond an x
     * wall mirrors the heading about the vertical axis and is clamped to the
     * zone, then likewise for y about the horizontal axis.
     */
    static method BounceOffWalls(zone: Zone, heading: real, newX: real, newY: real)
      returns (h: real, x: real, y: real)
      requires 0.0 <= heading < 360.0
      ensures h == BounceHeading(zone, heading, newX, newY)
      ensures x == Clamp(newX, zone.xMin, zone.xMax) && y == Clamp(newY, zone.yMin, zone.yMax)
    {
      h, x, y := heading, newX, newY;
      if x <= zone.xMin || x >= zone.xMax {
        h := Mod360(180.0 - h);
        x := Clamp(x, zone.xMin, zone.xMax);
      }
      if y <= zone.yMin || y >= zone.yMax {
        h := Mod360(-h);
        y := Clamp(y, zone.yMin, zone.yMax);
      }
    }

    /**
     * One tick of `tag`: drain the battery by one percent when the drain draw
     * fires, move the signal by the drawn step within [-90, -40], step the
     * kinematics with its type's speed ceiling (an asset only when its
     * trigger fires), re-run the containment search and report the resulting
     * zone transition, and stamp the tag with `now`.
     */
    method UpdateTagPosition(tag: Tag, dt: real, d: TickDraws, now: Instant) returns (alert: Option<ZoneAlert>)
      modifies tag
      ensures tag.battery == if d.drain then MaxInt(0, old(tag.battery) - 1) else old(tag.battery)
      ensures tag.rssi == ClampInt(old(tag.rssi) + d.rssiDelta, -90, -40)
      ensures KinematicsOf(tag) ==
                if MovesThisTick(tag.kind, d.assetTrigger)
                then Step(zones, old(KinematicsOf(tag)), tag.kind, dt, ProfileMaxSpeed(tag.kind, movement), d.motion)
                else old(KinematicsOf(tag))
      ensures tag.zoneId == CurrentZone(zones, tag.position)
      ensures tag.lastUpdate == Some(now)
      ensures alert == TransitionAlert(zones, tag.id, tag.name, old(tag.zoneId), tag.zoneId, now)
      ensures old(InOperatingRange(tag)) ==> InOperatingRange(tag)
      ensures old(ZonesConsistent()) ==> ZonesConsistent()
      ensures old(ZoneIdsKnown()) ==> ZoneIdsKnown()
    {
      if d.drain {
        tag.battery := MaxInt(0, tag.battery - 1);
      }
      tag.rssi := ClampInt(tag.rssi + d.rssiDelta, -90, -40);
      MoveByType(tag, dt, d.assetTrigger, d.motion);
      alert := TrackZone(tag, now);
      tag.lastUpdate := Some(now);
      CurrentZoneResolves(zones, tag.position);
      if old(ZonesConsistent()) {
        forall t | t in tags.Values
          ensures t.zoneId == CurrentZone(zones, t.position)
        {
          if t != tag {
            assert old(t.zoneId) == old(CurrentZone(zones, t.position));
          }
        }
      }
      if old(ZoneIdsKnown()) {
        forall t | t in tags.Values
          ensures t.zoneId.Some? ==> ZoneById(zones, t.zoneId.value).Some?
        {
          if t != tag {
            assert old(t.zoneId) == t.zoneId;
          }
        }
      }
    }

    /**
     * The movement of one tick by tag type: an asset moves, at up to 1 m/s,
     * only when its trigger fires; a vehicle moves at up to the configured
     * maximum and any other type at up to 2 m/s, on every tick.
     */
    method MoveByType(tag: Tag, dt: real, assetTrigger: bool, d: MotionDraws)
      modifies tag`position, tag`speed, tag`heading
      ensures KinematicsOf(tag) ==
                if MovesThisTick(tag.kind, assetTrigger)
                then Step(zones, old(KinematicsOf(tag)), tag.kind, dt, ProfileMaxSpeed(tag.kind, movement), d)
                else old(KinematicsOf(tag))
    {
      if tag.kind == "asset" {
        if assetTrigger {
          MoveTag(tag, dt, 1.0, d);
        }
      } else if tag.kind == "vehicle" {
        MoveTag(tag, dt, movement.maxSpeed, d);
      } else {
        MoveTag(tag, dt, 2.0, d);
      }
    }

    /**
     * The zone check at the end of a tick: re-run the containment search on
     * the tag's new position, build the exit alert for the old zone and then
     * the entry alert for the new one (the entry replacing the exit), and
     * record the new zone.
     */
    method TrackZone(tag: Tag, now: Instant) returns (alert: Option<ZoneAlert>)
      modifies tag`zoneId
      ensures tag.zoneId == CurrentZone(zones, tag.position)
      ensures alert == TransitionAlert(zones, tag.id, tag.name, old(tag.zoneId), tag.zoneId, now)
    {
      var newZone := GetCurrentZone(zones, tag.position);
      alert := None;
      if newZone != tag.zoneId {
        if tag.zoneId.Some? {
          var oldZone := GetZoneById(zones, tag.zoneId.value);
          if oldZone.Some? {
            alert := Some(ZoneAlert(tag.id, tag.name, now, Exited, oldZone.value.id, oldZone.value.name));
          }
        }
        if newZone.Some? {
          var entered := GetZoneById(zones, newZone.value);
          if entered.Some? {
            alert := Some(ZoneAlert(tag.id, tag.name, now, Entered, entered.value.id, entered.value.name));
          }
        }
        tag.zoneId := newZone;
      }
    }

    /** The snapshot of the tag filed under `tagId`, or none for an unknown id. */
    function GetLocationUpdate(tagId: string, now: Instant): (r: Option<LocationUpdate>)
      reads tags.Values
      ensures r.None? <==> tagId !in tags
      ensures r.Some? ==> r.value == FromTag(tags[tagId], now)
      ensures r.Some? && Valid() ==> r.value.tagId == tagId
    {
      if tagId in tags then Some(FromTag(tags[tagId], now)) else None
    }

    /** Every registered tag exactly once, in insertion order. */
    function GetAllTags(): (r: seq<Tag>)
      requires Valid()
      ensures |r| == |order| == |tags|
      ensures forall i :: 0 <= i < |r| ==> r[i] == tags[order[i]]
      ensures forall i, j :: 0 <= i < j < |r| ==> r[i] != r[j]
      ensures forall t :: t in r ==> t in tags.Values
      ensures forall t :: t in tags.Values ==> t in r
    {
      AllTagsCovered();
      TagsOf(order, tags)
    }

    lemma AllTagsCovered()
      requires Valid()
      ensures |order| == |tags|
      ensures forall t :: t in tags.Values ==> t in TagsOf(order, tags)
    {
      DistinctCardinality(order);
      assert tags.Keys == set k | k in order;
      forall t | t in tags.Values
        ensures t in TagsOf(order, tags)
      {
        var k :| k in tags && tags[k] == t;
        var i :| 0 <= i < |order| && order[i] == k;
        assert TagsOf(order, tags)[i] == t;
      }
    }

    /**
     * The registered tags whose recorded zone is `zoneId`. While the recorded
     * zones are up to date these are exactly the tags the containment search
     * places in that zone; an id that names no zone has no occupants.
     */
    function GetTagsInZone(zoneId: string): (r: seq<Tag>)
      requires Valid()
      reads tags.Values
      ensures forall t :: t in r ==> t in tags.Values && t.zoneId == Some(zoneId)
      ensures forall t :: t in tags.Values && t.zoneId == Some(zoneId) ==> t in r
      ensures ZonesConsistent() ==>
                (forall t :: t in r ==> CurrentZone(zones, t.position) == Some(zoneId)) &&
                (forall t :: t in tags.Values && CurrentZone(zones, t.position) == Some(zoneId) ==> t in r)
      ensures ZoneIdsKnown() && ZoneById(zones, zoneId).None? ==> r == []
      ensures IsSublist(r, GetAllTags())
      ensures forall i, j :: 0 <= i < j < |r| ==> r[i] != r[j]
    {
      var r := Occupants(GetAllTags(), zoneId);
      assert ZoneIdsKnown() && ZoneById(zones, zoneId).None? ==> r == [] by {
        if r != [] {
          assert r[0] in r;
        }
      }
      r
    }

    /**
     * Forces an anomaly on the tag filed under `tagId`: "low_battery" sets the
     * battery to the draw from [5, 15], "weak_signal" the signal to the draw
     * from [-85, -80], "fast_movement" the speed to twice the configured
     * maximum, and "out_of_bounds" moves the tag to (-10, -10) without
     * updating its recorded zone. An unknown id or anomaly changes nothing.
     */
    method SimulateAnomaly(tagId: string, anomaly: string, batteryDraw: int, rssiDraw: int)
      requires 5 <= batteryDraw <= 15 && -85 <= rssiDraw <= -80
      modifies if tagId in tags then {tags[tagId]} else {}
      ensures tagId in tags ==>
                var t := tags[tagId];
                && t.battery == (if anomaly == "low_battery" then batteryDraw else old(t.battery))
                && t.rssi == (if anomaly == "weak_signal" then rssiDraw else old(t.rssi))
                && t.speed == (if anomaly == "fast_movement" then 2.0 * movement.maxSpeed else old(t.speed))
                && t.position == (if anomaly == "out_of_bounds" then old(t.position).(x := -10.0, y := -10.0)
                                  else old(t.position))
                && t.heading == old(t.heading) && t.zoneId == old(t.zoneId) && t.lastUpdate == old(t.lastUpdate)
      ensures old(ZoneIdsKnown()) ==> ZoneIdsKnown()
    {
      if tagId !in tags {
        return;
      }
      var tag := tags[tagId];
      if anomaly == "low_battery" {
        tag.battery := batteryDraw;
      } else if anomaly == "weak_signal" {
        tag.rssi := rssiDraw;
      } else if anomaly == "fast_movement" {
        tag.speed := movement.maxSpeed * 2.0;
      } else if anomaly == "out_of_bounds" {
        tag.position := tag.position.(x := -10.0, y := -10.0);
      }
    }

    /** Up-to-date recorded zones are in particular known zones. */
    lemma ConsistentZonesAreKnown()
      requires ZonesConsistent()
      ensures ZoneIdsKnown()
    {
      forall t | t in tags.Values
        ensures t.zoneId.Some? ==> ZoneById(zones, t.zoneId.value).Some?
      {
        CurrentZoneResolves(zones, t.position);
      }
    }
  }
}
