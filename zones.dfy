/**
 * Zone membership: the first-match searches of the generator over its ordered
 * zone list, and the rule that turns a change of zone into at most one alert.
 */
module Zones {
  import opened Wrappers
  import opened Models

  /** The index of the first zone, in list order, that contains `p`. */
  function FirstContaining(zones: seq<Zone>, p: Position): (r: Option<nat>)
    ensures r.Some? ==> r.value < |zones| && zones[r.value].Contains(p)
    ensures r.Some? ==> forall j :: 0 <= j < r.value ==> !zones[j].Contains(p)
    ensures r.None? ==> forall j :: 0 <= j < |zones| ==> !zones[j].Contains(p)
  {
    if zones == [] then None
    else if zones[0].Contains(p) then Some(0)
    else match FirstContaining(zones[1..], p)
      case None => None
      case Some(i) => Some(i + 1)
  }

  /**
   * The id of the zone containing `p`: that of the first containing zone in
   * list order, or none when no zone contains it.
   */
  function CurrentZone(zones: seq<Zone>, p: Position): (r: Option<string>)
    ensures r.None? <==> forall j :: 0 <= j < |zones| ==> !zones[j].Contains(p)
    ensures r.Some? ==> exists i :: 0 <= i < |zones| && zones[i].Contains(p) && zones[i].id == r.value &&
                                    forall j :: 0 <= j < i ==> !zones[j].Contains(p)
  {
    match FirstContaining(zones, p)
    case None => None
    case Some(i) => Some(zones[i].id)
  }

  /** The index of the first zone, in list order, whose id is `id`. */
  function FirstWithId(zones: seq<Zone>, id: string): (r: Option<nat>)
    ensures r.Some? ==> r.value < |zones| && zones[r.value].id == id
    ensures r.Some? ==> forall j :: 0 <= j < r.value ==> zones[j].id != id
    ensures r.None? ==> forall j :: 0 <= j < |zones| ==> zones[j].id != id
  {
    if zones == [] then None
    else if zones[0].id == id then Some(0)
    else match FirstWithId(zones[1..], id)
      case None => None
      case Some(i) => Some(i + 1)
  }

  /** The first zone in list order whose id is `id`, or none. */
  function ZoneById(zones: seq<Zone>, id: string): (r: Option<Zone>)
    ensures r.None? <==> forall j :: 0 <= j < |zones| ==> zones[j].id != id
    ensures r.Some? ==> r.value.id == id && exists i :: 0 <= i < |zones| && zones[i] == r.value &&
                                                        forall j :: 0 <= j < i ==> zones[j].id != id
  {
    match FirstWithId(zones, id)
    case None => None
    case Some(i) => Some(zones[i])
  }

  /** Every id the containment search reports names a configured zone. */
  lemma CurrentZoneResolves(zones: seq<Zone>, p: Position)
    ensures CurrentZone(zones, p).Some? ==> ZoneById(zones, CurrentZone(zones, p).value).Some?
  {
    match FirstContaining(zones, p)
    case None =>
    case Some(i) =>
      assert zones[i].id == CurrentZone(zones, p).value;
  }

  /**
   * The alert of one tick for a tag whose recorded zone goes from `oldZone` to
   * `newZone`. An exit is computed first and an entry overwrites it, so a
   * tag moving straight from one zone into another reports only the entry.
   * An id that names no configured zone produces no alert of its own (so an
   * exit survives when the new id cannot be resolved).
   */
  function TransitionAlert(zones: seq<Zone>, tagId: string, tagName: string,
                           oldZone: Option<string>, newZone: Option<string>, now: Instant): (r: Option<ZoneAlert>)
    ensures newZone == oldZone ==> r.None?
    ensures r.Some? ==> r.value.tagId == tagId && r.value.tagName == tagName && r.value.timestamp == now
    ensures r.Some? ==> ZoneById(zones, r.value.zoneId).Some? &&
                        ZoneById(zones, r.value.zoneId).value.name == r.value.zoneName
    ensures r.Some? && r.value.eventType == Entered ==> newZone == Some(r.value.zoneId) && oldZone != newZone
    ensures r.Some? && r.value.eventType == Exited ==>
              oldZone == Some(r.value.zoneId) && oldZone != newZone &&
              (newZone.None? || ZoneById(zones, newZone.value).None?)
    ensures newZone != oldZone && newZone.Some? && ZoneById(zones, newZone.value).Some? ==>
              r.Some? && r.value.eventType == Entered
    ensures newZone.None? && oldZone.Some? ==> (r.Some? <==> ZoneById(zones, oldZone.value).Some?)
    ensures newZone != oldZone && oldZone.Some? && ZoneById(zones, oldZone.value).Some? &&
            (newZone.None? || ZoneById(zones, newZone.value).None?) ==>
              r.Some? && r.value.eventType == Exited && r.value.zoneId == oldZone.value
    ensures newZone != oldZone && (oldZone.None? || ZoneById(zones, oldZone.value).None?) &&
            (newZone.None? || ZoneById(zones, newZone.value).None?) ==>
              r.None?
  {
    if newZone == oldZone then None
    else if newZone.Some? && ZoneById(zones, newZone.value).Some? then
      var z := ZoneById(zones, newZone.value).value;
      Some(ZoneAlert(tagId, tagName, now, Entered, z.id, z.name))
    else if oldZone.Some? && ZoneById(zones, oldZone.value).Some? then
      var z := ZoneById(zones, oldZone.value).value;
      Some(ZoneAlert(tagId, tagName, now, Exited, z.id, z.name))
    else None
  }

  /**
   * Once the tracked zone is recomputed by the containment search, a change
   * into a zone always yields an entry alert for that zone, and a change out
   * of every zone yields an exit alert exactly when the old id names a zone.
   */
  lemma TrackedTransitionAlert(zones: seq<Zone>, tagId: string, tagName: string,
                               oldZone: Option<string>, p: Position, now: Instant)
    ensures var newZone := CurrentZone(zones, p);
            var r := TransitionAlert(zones, tagId, tagName, oldZone, newZone, now);
            (newZone != oldZone && newZone.Some? ==>
               r.Some? && r.value.eventType == Entered && r.value.zoneId == newZone.value) &&
            (newZone.None? && oldZone.Some? ==>
               (r.Some? <==> ZoneById(zones, oldZone.value).Some?) &&
               (r.Some? ==> r.value.eventType == Exited && r.value.zoneId == oldZone.value))
  {
    CurrentZoneResolves(zones, p);
  }

  /** The containment search as the generator runs it: the first zone in list order that contains `p`. */
  method GetCurrentZone(zones: seq<Zone>, p: Position) returns (r: Option<string>)
    ensures r == CurrentZone(zones, p)
  {
    for i := 0 to |zones|
      invariant forall j :: 0 <= j < i ==> !zones[j].Contains(p)
    {
      if zones[i].Contains(p) {
        return Some(zones[i].id);
      }
    }
    return None;
  }

  /** The search of the movement step for the zone to bounce in: the index of the first zone containing `p`. */
  method FindContainingZone(zones: seq<Zone>, p: Position) returns (r: Option<nat>)
    ensures r == FirstContaining(zones, p)
  {
    var i := 0;
    while i < |zones| && !zones[i].Contains(p)
      invariant 0 <= i <= |zones|
      invariant forall j :: 0 <= j < i ==> !zones[j].Contains(p)
    {
      i := i + 1;
    }
    if i < |zones| {
      r := Some(i);
    } else {
      r := None;
    }
  }

  /** The lookup by id as the generator runs it: the first zone in list order with that id. */
  method GetZoneById(zones: seq<Zone>, id: string) returns (r: Option<Zone>)
    ensures r == ZoneById(zones, id)
  {
    for i := 0 to |zones|
      invariant forall j :: 0 <= j < i ==> zones[j].id != id
    {
      if zones[i].id == id {
        return Some(zones[i]);
      }
    }
    return None;
  }
}
