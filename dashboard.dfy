/**
 * The dashboard's derived views (app/dashboard/page.tsx): the per-zone
 * `{ total, operational }` dictionary, the list of failed lights, and the
 * "fully healthy" colouring of a zone's counter. The light list is
 * `undefined` while the query is loading, modelled as `None`.
 */
module Dashboard {
  import opened Schema
  import opened Lights
  import opened Zones

  datatype ZoneTally = ZoneTally(total: nat, operational: nat)

  /** The entry a zone should get: its number of lights and how many are on. */
  function TallyOf(lights: seq<Light>, z: string): ZoneTally {
    var members := InZone(lights, z);
    ZoneTally(|members|, |InState(members, true)|)
  }

  /** A zone's counter and bar are green exactly when `operational === total`. */
  predicate FullyHealthy(t: ZoneTally) {
    t.operational == t.total
  }

  /** A zone is shown fully healthy exactly when every light in it is on. */
  lemma FullyHealthyIff(lights: seq<Light>, z: string)
    ensures FullyHealthy(TallyOf(lights, z)) <==> forall l :: l in lights && l.zone == z ==> l.isOn
  {
    AllOnIff(InZone(lights, z));
    InZoneMembers(lights, z);
  }

  /** What the finished reduce holds: one entry per zone that has lights. */
  function Tallies(lights: seq<Light>): map<string, ZoneTally> {
    map z | z in ZoneNames(lights) :: TallyOf(lights, z)
  }

  /** One step of the reduce: create the zone's entry if missing, then count the light. */
  function AddLight(acc: map<string, ZoneTally>, light: Light): map<string, ZoneTally> {
    var entry := if light.zone in acc then acc[light.zone] else ZoneTally(0, 0);
    acc[light.zone := ZoneTally(entry.total + 1, entry.operational + (if light.isOn then 1 else 0))]
  }

  /** A zone's entry after one more light of that zone. */
  lemma TallyOfMember(members: seq<Light>, light: Light)
    ensures |InState(members + [light], true)| == |InState(members, true)| + (if light.isOn then 1 else 0)
  {
    InStateSnoc(members, light, true);
  }

  /** Appending a light changes only its own zone's entry: one more light, one more "on" if it is on. */
  lemma TallyOfSnoc(done: seq<Light>, light: Light, z: string)
    ensures TallyOf(done + [light], z).total == TallyOf(done, z).total + (if light.zone == z then 1 else 0)
    ensures TallyOf(done + [light], z).operational
         == TallyOf(done, z).operational + (if light.zone == z && light.isOn then 1 else 0)
  {
    InZoneSnoc(done, light, z);
    if light.zone == z {
      TallyOfMember(InZone(done, z), light);
    }
  }

  /** The entry `AddLight` leaves for zone `z`. */
  lemma AddLightAt(acc: map<string, ZoneTally>, light: Light, z: string, before: ZoneTally)
    requires before == (if z in acc then acc[z] else ZoneTally(0, 0))
    requires z in acc || z == light.zone
    ensures z in AddLight(acc, light)
    ensures AddLight(acc, light)[z]
         == if z == light.zone then ZoneTally(before.total + 1, before.operational + (if light.isOn then 1 else 0))
            else before
  {
  }

  lemma TalliesStepAt(done: seq<Light>, light: Light, z: string)
    requires z in Tallies(done + [light])
    ensures z in AddLight(Tallies(done), light)
    ensures Tallies(done + [light])[z] == AddLight(Tallies(done), light)[z]
  {
    ZoneNamesSnoc(done, light);
    ZoneNamesMembers(done);
    TallyOfSnoc(done, light, z);
    var m := Tallies(done);
    var t, t' := TallyOf(done, z), TallyOf(done + [light], z);
    if z !in ZoneNames(done) {
      assert InZone(done, z) == [];
    }
    assert t == (if z in m then m[z] else ZoneTally(0, 0));
    AddLightAt(m, light, z, t);
  }

  /** Counting one more light into the tallies of a prefix gives the tallies of the longer prefix. */
  lemma TalliesStep(done: seq<Light>, light: Light)
    ensures Tallies(done + [light]) == AddLight(Tallies(done), light)
  {
    ZoneNamesSnoc(done, light);
    var lhs, rhs := Tallies(done + [light]), AddLight(Tallies(done), light);
    assert lhs.Keys == rhs.Keys;
    forall z | z in lhs ensures lhs[z] == rhs[z] {
      TalliesStepAt(done, light, z);
    }
  }

  /** Every entry counts at least one light, and no more on than it has. */
  lemma TalliesBounds(lights: seq<Light>)
    ensures forall z :: z in Tallies(lights) ==>
      1 <= Tallies(lights)[z].total && Tallies(lights)[z].operational <= Tallies(lights)[z].total
  {
    ZoneNamesMembers(lights);
    forall z | z in Tallies(lights)
      ensures 1 <= Tallies(lights)[z].total && Tallies(lights)[z].operational <= Tallies(lights)[z].total
    {
      assert InZone(lights, z) != [];
    }
  }

  /** Component-wise sum of the entries named in `names`. */
  function SumTallies(tallies: map<string, ZoneTally>, names: seq<string>): ZoneTally
    requires forall n :: n in names ==> n in tallies
  {
    if names == [] then ZoneTally(0, 0)
    else
      var s := SumTallies(tallies, names[..|names| - 1]);
      var t := tallies[names[|names| - 1]];
      ZoneTally(s.total + t.total, s.operational + t.operational)
  }

  lemma {:induction false} SumTalliesOfTallyOf(lights: seq<Light>, tallies: map<string, ZoneTally>, names: seq<string>)
    requires forall n :: n in names ==> n in tallies && tallies[n] == TallyOf(lights, n)
    ensures SumTallies(tallies, names)
         == ZoneTally(ZoneSizes(lights, names), ZoneSizes(InState(lights, true), names))
  {
    if names != [] {
      var last := names[|names| - 1];
      SumTalliesOfTallyOf(lights, tallies, names[..|names| - 1]);
      InZoneInState(lights, last, true);
    }
  }

  /** Summed over all zones, the entries count every light once and every "on" light once. */
  lemma TalliesSum(lights: seq<Light>)
    ensures forall n :: n in ZoneNames(lights) ==> n in Tallies(lights)
    ensures SumTallies(Tallies(lights), ZoneNames(lights))
         == ZoneTally(|lights|, StatsOf(lights).operational)
  {
    ZoneNamesPartition(lights);
    SumTalliesOfTallyOf(lights, Tallies(lights), ZoneNames(lights));
  }

  /** `Object.entries(zones)`: the zone names in insertion order, and the dictionary. */
  datatype ZoneSummary = ZoneSummary(names: seq<string>, tallies: map<string, ZoneTally>)

  /** The reduce's callback on one light: the dictionary grows by it, a new zone goes last. */
  function Step(acc: ZoneSummary, light: Light): ZoneSummary {
    ZoneSummary(
      if light.zone in acc.tallies then acc.names else acc.names + [light.zone],
      AddLight(acc.tallies, light))
  }

  /** The reduce itself, from the empty dictionary. */
  function Reduce(lights: seq<Light>): ZoneSummary {
    if lights == [] then ZoneSummary([], map[])
    else Step(Reduce(lights[..|lights| - 1]), lights[|lights| - 1])
  }

  /** The reduce lists the zones in first-seen order and gives each its tally. */
  lemma {:induction false} ReduceMeaning(lights: seq<Light>)
    ensures Reduce(lights).names == ZoneNames(lights)
    ensures Reduce(lights).tallies == Tallies(lights)
  {
    if lights != [] {
      var init, last := lights[..|lights| - 1], lights[|lights| - 1];
      assert lights == init + [last];
      ReduceMeaning(init);
      ZoneNamesSnoc(init, last);
      TalliesStep(init, last);
    }
  }

  /**
   * What the dashboard reads off the reduce: names and keys agree, every
   * zone has a light and no more on than it has, and the entries add up
   * to the list's size and its number of lights on.
   */
  lemma ReduceTotals(lights: seq<Light>)
    ensures var r := Reduce(lights);
      && Distinct(r.names)
      && (forall z :: z in r.tallies <==> z in r.names)
      && (forall z :: z in r.tallies ==> r.tallies[z] == TallyOf(lights, z))
      && (forall z :: z in r.tallies ==> 1 <= r.tallies[z].total && r.tallies[z].operational <= r.tallies[z].total)
      && SumTallies(r.tallies, r.names) == ZoneTally(|lights|, StatsOf(lights).operational)
  {
    ReduceMeaning(lights);
    ZoneNamesMembers(lights);
    TalliesBounds(lights);
    TalliesSum(lights);
  }

  /**
   * The `zones` reduce: `undefined` while loading; otherwise the object
   * built by visiting the lights in order.
   */
  method SummarizeZones(lights: Option<seq<Light>>) returns (r: Option<ZoneSummary>)
    ensures lights.None? <==> r.None?
    ensures lights.Some? ==> r.value == Reduce(lights.value)
  {
    if lights.None? {
      return None;
    }
    var s := lights.value;
    var names: seq<string> := [];
    var acc: map<string, ZoneTally> := map[];
    ghost var done: seq<Light> := [];
    var i := 0;
    while i < |s|
      invariant 0 <= i <= |s|
      invariant done == s[..i]
      invariant names == Reduce(done).names
      invariant acc == Reduce(done).tallies
    {
      var light := s[i];
      assert (done + [light])[..|done|] == done;
      var zone := light.zone;
      if zone !in acc {
        acc := acc[zone := ZoneTally(0, 0)];
        names := names + [zone];
      }
      // acc[zone] is an object updated in place: total++, then operational++ if on
      var entry := acc[zone];
      entry := entry.(total := entry.total + 1);
      if light.isOn {
        entry := entry.(operational := entry.operational + 1);
      }
      acc := acc[zone := entry];
      done := done + [light];
      i := i + 1;
    }
    assert done == s;
    r := Some(ZoneSummary(names, acc));
  }

  /** `failedLights`: the lights that are off, in list order; empty while loading. */
  function FailedLights(lights: Option<seq<Light>>): (r: seq<Light>)
    ensures lights.None? ==> r == []
    ensures lights.Some? ==> forall l :: l in r <==> l in lights.value && !l.isOn
    ensures lights.Some? ==> |r| == StatsOf(lights.value).failed
    ensures lights.Some? ==> |r| == |lights.value| - StatsOf(lights.value).operational
  {
    if lights.Some? then
      InStateMembers(lights.value, false);
      InState(lights.value, false)
    else []
  }

  /**
   * The failed lights keep list order: a single light is listed exactly
   * when it is off, and the list for a concatenation is the two lists
   * one after the other.
   */
  lemma FailedLightsKeepOrder(a: seq<Light>, b: seq<Light>, l: Light)
    ensures FailedLights(Some([l])) == (if l.isOn then [] else [l])
    ensures FailedLights(Some(a + b)) == FailedLights(Some(a)) + FailedLights(Some(b))
  {
    InStateSnoc([], l, false);
    assert [] + [l] == [l];
    InStateAppend(a, b, false);
  }
}
