/**
 * The simulation page's grouping (app/simulation/page.tsx): a `reduce`
 * that creates a dictionary key the first time a zone is met and pushes
 * each light onto its zone's array. The light list is `undefined` while
 * the query is loading, modelled as `None`.
 */
module Simulation {
  import opened Schema
  import opened Zones

  /** `Object.entries(zones)`: the zone names in insertion order, and the arrays. */
  datatype ZoneGroups = ZoneGroups(names: seq<string>, groups: map<string, seq<Light>>)

  /** What the finished reduce holds: each zone that has lights, with its lights in list order. */
  function Groups(lights: seq<Light>): map<string, seq<Light>> {
    map z | z in ZoneNames(lights) :: InZone(lights, z)
  }

  /** The callback's effect on the dictionary: create the key if missing, then push. */
  function Push(acc: map<string, seq<Light>>, light: Light): map<string, seq<Light>> {
    var group := if light.zone in acc then acc[light.zone] else [];
    acc[light.zone := group + [light]]
  }

  lemma GroupsStepAt(done: seq<Light>, light: Light, z: string)
    requires z in Groups(done + [light])
    ensures z in Push(Groups(done), light)
    ensures Groups(done + [light])[z] == Push(Groups(done), light)[z]
  {
    ZoneNamesSnoc(done, light);
    ZoneNamesMembers(done);
    InZoneSnoc(done, light, z);
  }

  /** Pushing one more light into the groups of a prefix gives the groups of the longer prefix. */
  lemma GroupsStep(done: seq<Light>, light: Light)
    ensures Groups(done + [light]) == Push(Groups(done), light)
  {
    ZoneNamesSnoc(done, light);
    var lhs, rhs := Groups(done + [light]), Push(Groups(done), light);
    assert lhs.Keys == rhs.Keys;
    forall z | z in lhs ensures lhs[z] == rhs[z] {
      GroupsStepAt(done, light, z);
    }
  }

  /** The reduce's callback on one light. */
  function Step(acc: ZoneGroups, light: Light): ZoneGroups {
    ZoneGroups(
      if light.zone in acc.groups then acc.names else acc.names + [light.zone],
      Push(acc.groups, light))
  }

  /** The reduce itself, from the empty dictionary. */
  function Reduce(lights: seq<Light>): ZoneGroups {
    if lights == [] then ZoneGroups([], map[])
    else Step(Reduce(lights[..|lights| - 1]), lights[|lights| - 1])
  }

  /** The reduce lists the zones in first-seen order and gives each its lights, in list order. */
  lemma {:induction false} ReduceMeaning(lights: seq<Light>)
    ensures Reduce(lights).names == ZoneNames(lights)
    ensures Reduce(lights).groups == Groups(lights)
  {
    if lights != [] {
      var init, last := lights[..|lights| - 1], lights[|lights| - 1];
      assert lights == init + [last];
      ReduceMeaning(init);
      ZoneNamesSnoc(init, last);
      GroupsStep(init, last);
    }
  }

  /** Sum of the sizes of the arrays named in `names`. */
  function GroupSizes(groups: map<string, seq<Light>>, names: seq<string>): nat
    requires forall n :: n in names ==> n in groups
  {
    if names == [] then 0
    else GroupSizes(groups, names[..|names| - 1]) + |groups[names[|names| - 1]]|
  }

  lemma {:induction false} GroupSizesOfGroups(lights: seq<Light>, names: seq<string>)
    requires forall n :: n in names ==> n in Groups(lights)
    ensures GroupSizes(Groups(lights), names) == ZoneSizes(lights, names)
  {
    if names != [] {
      GroupSizesOfGroups(lights, names[..|names| - 1]);
    }
  }

  /**
   * What the page renders from the reduce: the names are the keys, no
   * array is empty, a light is in a zone's array exactly when it has that
   * zone (so in exactly one array), and the array sizes add up to the
   * number of lights.
   */
  lemma ReduceGroupsPartition(lights: seq<Light>)
    ensures var r := Reduce(lights);
      && Distinct(r.names)
      && (forall z :: z in r.groups <==> z in r.names)
      && (forall z :: z in r.groups ==> r.groups[z] != [])
      && (forall z, l :: z in r.groups && l in r.groups[z] ==> l in lights && l.zone == z)
      && (forall l :: l in lights ==> l.zone in r.groups && l in r.groups[l.zone])
      && GroupSizes(r.groups, r.names) == |lights|
  {
    ReduceMeaning(lights);
    ZoneNamesMembers(lights);
    ZoneNamesPartition(lights);
    GroupSizesOfGroups(lights, ZoneNames(lights));
    forall z ensures forall l :: l in InZone(lights, z) <==> l in lights && l.zone == z {
      InZoneMembers(lights, z);
    }
    forall l | l in lights ensures l.zone in Groups(lights) && l in Groups(lights)[l.zone] {
      assert l in InZone(lights, l.zone);
    }
  }

  /** A zone's array as the page would list it, or nothing when the zone has no key. */
  function GroupOf(r: ZoneGroups, z: string): seq<Light> {
    if z in r.groups then r.groups[z] else []
  }

  /** Each array keeps the list order: grouping a concatenation appends the groups. */
  lemma ReduceKeepsOrder(a: seq<Light>, b: seq<Light>, z: string)
    ensures GroupOf(Reduce(a + b), z) == GroupOf(Reduce(a), z) + GroupOf(Reduce(b), z)
  {
    ReduceMeaning(a);
    ReduceMeaning(b);
    ReduceMeaning(a + b);
    ZoneNamesMembers(a);
    ZoneNamesMembers(b);
    ZoneNamesMembers(a + b);
    InZoneAppend(a, b, z);
  }

  /**
   * The `zones` reduce: `undefined` while loading; otherwise the object
   * built by visiting the lights in order.
   */
  method GroupByZone(lights: Option<seq<Light>>) returns (r: Option<ZoneGroups>)
    ensures lights.None? <==> r.None?
    ensures lights.Some? ==> r.value == Reduce(lights.value)
  {
    if lights.None? {
      return None;
    }
    var s := lights.value;
    var names: seq<string> := [];
    var acc: map<string, seq<Light>> := map[];
    ghost var done: seq<Light> := [];
    var i := 0;
    while i < |s|
      invariant 0 <= i <= |s|
      invariant done == s[..i]
      invariant names == Reduce(done).names
      invariant acc == Reduce(done).groups
    {
      var light := s[i];
      assert (done + [light])[..|done|] == done;
      if light.zone !in acc {
        acc := acc[light.zone := []];
        names := names + [light.zone];
      }
      acc := acc[light.zone := acc[light.zone] + [light]];
      done := done + [light];
      i := i + 1;
    }
    assert done == s;
    r := Some(ZoneGroups(names, acc));
  }
}
