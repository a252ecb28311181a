/**
 * Grouping lights by their `zone` field: the per-zone filter and the
 * first-seen list of zone names that both the dashboard and the
 * simulation page build with a `reduce` over the light list.
 */
module Zones {
  import opened Schema
  import opened Lights

  predicate Distinct(names: seq<string>) {
    forall i, j :: 0 <= i < j < |names| ==> names[i] != names[j]
  }

  /** The lights of zone `z`, in list order. */
  function InZone(lights: seq<Light>, z: string): (r: seq<Light>)
    ensures |r| <= |lights|
  {
    if lights == [] then []
    else
      var init := lights[..|lights| - 1];
      var last := lights[|lights| - 1];
      assert lights == init + [last];
      if last.zone == z then InZone(init, z) + [last] else InZone(init, z)
  }

  lemma InZoneSnoc(lights: seq<Light>, l: Light, z: string)
    ensures InZone(lights + [l], z) == InZone(lights, z) + (if l.zone == z then [l] else [])
  {
    assert (lights + [l])[..|lights|] == lights;
  }

  /** The filter keeps exactly the lights of zone `z`. */
  lemma {:induction false} InZoneMembers(lights: seq<Light>, z: string)
    ensures forall l :: l in InZone(lights, z) <==> l in lights && l.zone == z
  {
    if lights != [] {
      var init, last := lights[..|lights| - 1], lights[|lights| - 1];
      assert lights == init + [last];
      InZoneMembers(init, z);
      InZoneSnoc(init, last, z);
    }
  }

  /** Filtering by zone keeps relative order: it distributes over concatenation. */
  lemma {:induction false} InZoneAppend(a: seq<Light>, b: seq<Light>, z: string)
    ensures InZone(a + b, z) == InZone(a, z) + InZone(b, z)
  {
    if b != [] {
      var init, last := b[..|b| - 1], b[|b| - 1];
      assert b == init + [last];
      assert a + b == (a + init) + [last];
      InZoneAppend(a, init, z);
      InZoneSnoc(a + init, last, z);
      InZoneSnoc(init, last, z);
    } else {
      assert a + b == a;
    }
  }

  /** Filtering by zone and by state commute. */
  lemma {:induction false} InZoneInState(lights: seq<Light>, z: string, on: bool)
    ensures InZone(InState(lights, on), z) == InState(InZone(lights, z), on)
  {
    if lights != [] {
      var init, last := lights[..|lights| - 1], lights[|lights| - 1];
      assert lights == init + [last];
      InZoneInState(init, z, on);
      InStateSnoc(init, last, on);
      InZoneSnoc(init, last, z);
      if last.isOn == on {
        InZoneSnoc(InState(init, on), last, z);
      }
      if last.zone == z {
        InStateSnoc(InZone(init, z), last, on);
      }
    }
  }

  /** The distinct zone names, in order of first appearance. */
  function ZoneNames(lights: seq<Light>): seq<string> {
    if lights == [] then []
    else
      var seen := ZoneNames(lights[..|lights| - 1]);
      var z := lights[|lights| - 1].zone;
      if z in seen then seen else seen + [z]
  }

  /** Extending the list adds the new light's zone at the end, unless it was already listed. */
  lemma ZoneNamesSnoc(lights: seq<Light>, l: Light)
    ensures ZoneNames(lights + [l])
         == if l.zone in ZoneNames(lights) then ZoneNames(lights) else ZoneNames(lights) + [l.zone]
  {
    assert (lights + [l])[..|lights|] == lights;
  }

  /** The zone names are distinct, and they are exactly the zones that have lights. */
  lemma {:induction false} ZoneNamesMembers(lights: seq<Light>)
    ensures Distinct(ZoneNames(lights))
    ensures forall z :: z in ZoneNames(lights) <==> InZone(lights, z) != []
  {
    if lights != [] {
      var init, last := lights[..|lights| - 1], lights[|lights| - 1];
      assert lights == init + [last];
      ZoneNamesMembers(init);
      ZoneNamesSnoc(init, last);
      forall z ensures InZone(lights, z) == InZone(init, z) + (if last.zone == z then [last] else []) {
        InZoneSnoc(init, last, z);
      }
    }
  }

  /** How many times `z` occurs in `names`. */
  function Occurrences(names: seq<string>, z: string): nat {
    if names == [] then 0
    else Occurrences(names[..|names| - 1], z) + (if names[|names| - 1] == z then 1 else 0)
  }

  lemma {:induction false} OccurrencesOfDistinct(names: seq<string>, z: string)
    requires Distinct(names)
    ensures Occurrences(names, z) == if z in names then 1 else 0
  {
    if names != [] {
      var init := names[..|names| - 1];
      assert names == init + [names[|names| - 1]];
      OccurrencesOfDistinct(init, z);
    }
  }

  /** The sum over `names` of the sizes of their zones. */
  function ZoneSizes(lights: seq<Light>, names: seq<string>): nat {
    if names == [] then 0
    else ZoneSizes(lights, names[..|names| - 1]) + |InZone(lights, names[|names| - 1])|
  }

  lemma {:induction false} ZoneSizesSnoc(lights: seq<Light>, l: Light, names: seq<string>)
    ensures ZoneSizes(lights + [l], names) == ZoneSizes(lights, names) + Occurrences(names, l.zone)
  {
    if names != [] {
      ZoneSizesSnoc(lights, l, names[..|names| - 1]);
      InZoneSnoc(lights, l, names[|names| - 1]);
    }
  }

  lemma {:induction false} ZoneSizesOfNone(names: seq<string>)
    ensures ZoneSizes([], names) == 0
  {
    if names != [] {
      ZoneSizesOfNone(names[..|names| - 1]);
    }
  }

  /**
   * Zones partition the lights: summed over distinct names that cover
   * every light's zone, the zone sizes add up to the number of lights.
   */
  lemma {:induction false} ZoneSizesCover(lights: seq<Light>, names: seq<string>)
    requires Distinct(names)
    requires forall l :: l in lights ==> l.zone in names
    ensures ZoneSizes(lights, names) == |lights|
  {
    if lights == [] {
      ZoneSizesOfNone(names);
    } else {
      var init, last := lights[..|lights| - 1], lights[|lights| - 1];
      assert lights == init + [last];
      ZoneSizesCover(init, names);
      ZoneSizesSnoc(init, last, names);
      OccurrencesOfDistinct(names, last.zone);
    }
  }

  /** The zone names of the list cover it: every light is counted exactly once. */
  lemma ZoneNamesPartition(lights: seq<Light>)
    ensures ZoneSizes(lights, ZoneNames(lights)) == |lights|
    ensures ZoneSizes(InState(lights, true), ZoneNames(lights)) == |InState(lights, true)|
  {
    var names := ZoneNames(lights);
    ZoneNamesMembers(lights);
    forall l | l in lights ensures l.zone in names {
      InZoneMembers(lights, l.zone);
      assert l in InZone(lights, l.zone);
    }
    InStateMembers(lights, true);
    ZoneSizesCover(lights, names);
    ZoneSizesCover(InState(lights, true), names);
  }
}
