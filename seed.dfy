/**
 * The seeder (convex/seed.ts): on an empty table it lays out `Count`
 * Left/Right pairs of lights along the runway 03/21 centreline, inserts
 * them in order and reports how many; on a non-empty table it does
 * nothing. Coordinates are exact reals.
 */
module Seed {
  import opened Schema
  import opened Decimal
  import opened Lights
  import opened Zones

  const StartLat: real := 32.005622
  const StartLng: real := 34.891736
  const EndLat: real := 32.020083
  const EndLng: real := 34.902556

  /** Number of Left/Right pairs. */
  const Count: nat := 20

  /** Sideways offset of a light from the centreline, in degrees. */
  const Offset: real := 0.0002

  const LeftZone: string := "Runway 03/21 Left"
  const RightZone: string := "Runway 03/21 Right"
  const Operational: string := "operational"

  /** `i / (count - 1)`: where pair `i` sits between the two runway ends. */
  function Ratio(i: nat): (r: real)
    ensures i == 0 ==> r == 0.0
    ensures i == Count - 1 ==> r == 1.0
    ensures i < Count ==> 0.0 <= r <= 1.0
  {
    i as real / (Count - 1) as real
  }

  /** The centreline point of pair `i`, interpolated between start and end. */
  function CentreLat(i: nat): real {
    StartLat + (EndLat - StartLat) * Ratio(i)
  }

  function CentreLng(i: nat): real {
    StartLng + (EndLng - StartLng) * Ratio(i)
  }

  /** The label `${prefix}${i + 1}`. */
  function Label(prefix: string, i: nat): string {
    prefix + DecimalString(i + 1)
  }

  function LeftLight(i: nat): LightFields {
    LightFields(CentreLat(i) + Offset, CentreLng(i) - Offset, true, LeftZone, Label("L-", i), Some(Operational))
  }

  function RightLight(i: nat): LightFields {
    LightFields(CentreLat(i) - Offset, CentreLng(i) + Offset, true, RightZone, Label("R-", i), Some(Operational))
  }

  /** Entry `k` of the array the first loop builds: pairs are pushed Left first, then Right. */
  function Planned(k: nat): LightFields {
    if k % 2 == 0 then LeftLight(k / 2) else RightLight(k / 2)
  }

  /** The whole array the first loop builds. */
  function Plan(): (r: seq<LightFields>)
    ensures |r| == 2 * Count
    ensures forall k :: 0 <= k < |r| ==> r[k] == Planned(k)
  {
    seq(2 * Count, k requires 0 <= k < 2 * Count => Planned(k))
  }

  /** The first and last centreline points are the runway's two ends. */
  lemma CentreEnds()
    ensures CentreLat(0) == StartLat && CentreLng(0) == StartLng
    ensures CentreLat(Count - 1) == EndLat && CentreLng(Count - 1) == EndLng
  {
  }

  /** Each pair straddles its centreline point: the two lights are mirror images about it. */
  lemma PairSymmetric(i: nat)
    ensures LeftLight(i).lat - CentreLat(i) == Offset && CentreLat(i) - RightLight(i).lat == Offset
    ensures CentreLng(i) - LeftLight(i).lng == Offset && RightLight(i).lng - CentreLng(i) == Offset
    ensures (LeftLight(i).lat + RightLight(i).lat) / 2.0 == CentreLat(i)
    ensures (LeftLight(i).lng + RightLight(i).lng) / 2.0 == CentreLng(i)
  {
  }

  /** Every seeded light is on and marked operational. */
  lemma PlanAllOperational()
    ensures forall k :: 0 <= k < |Plan()| ==> Plan()[k].isOn && Plan()[k].status == Some(Operational)
  {
  }

  /**
   * Entry 2i is the Left light of pair i and entry 2i+1 the Right one;
   * each label is its side's letter, a dash, and a numeral that reads
   * back as i + 1.
   */
  lemma PlanLabels(k: nat)
    requires k < 2 * Count
    ensures var f := Plan()[k];
      && |f.labelText| >= 3
      && f.labelText[..2] == (if k % 2 == 0 then "L-" else "R-")
      && f.zone == (if k % 2 == 0 then LeftZone else RightZone)
      && IsDigits(f.labelText[2..])
      && DecimalValue(f.labelText[2..]) == k / 2 + 1
  {
    var f := Plan()[k];
    var digits := DecimalString(k / 2 + 1);
    assert f.labelText == (if k % 2 == 0 then "L-" else "R-") + digits;
    assert f.labelText[2..] == digits;
    DecimalRoundTrip(k / 2 + 1);
  }

  /** No two seeded lights share a label. */
  lemma PlanLabelsDistinct(j: nat, k: nat)
    requires j < k < 2 * Count
    ensures Plan()[j].labelText != Plan()[k].labelText
  {
    PlanLabels(j);
    PlanLabels(k);
  }

  /** The first `m` pairs of `lights` are each a Left light followed by a Right light. */
  predicate Alternating(lights: seq<Light>, m: nat)
    requires 2 * m <= |lights|
  {
    m == 0 || (Alternating(lights, m - 1) && lights[2 * m - 2].zone == LeftZone && lights[2 * m - 1].zone == RightZone)
  }

  /** Appending a Left/Right pair adds one light to each of the two zones. */
  lemma PairAddsOne(p: seq<Light>, left: Light, right: Light, z: string)
    requires z == LeftZone || z == RightZone
    requires left.zone == LeftZone && right.zone == RightZone
    ensures |InZone(p + [left] + [right], z)| == |InZone(p, z)| + 1
  {
    InZoneSnoc(p, left, z);
    InZoneSnoc(p + [left], right, z);
  }

  /** The first `m` Left/Right pairs hold `m` lights of each zone. */
  lemma {:induction false} ZoneCountsPrefix(lights: seq<Light>, m: nat, z: string)
    requires z == LeftZone || z == RightZone
    requires 2 * m <= |lights| && Alternating(lights, m)
    ensures |InZone(lights[..2 * m], z)| == m
  {
    if m > 0 {
      var n := 2 * m;
      ZoneCountsPrefix(lights, m - 1, z);
      assert lights[..n] == lights[..n - 2] + [lights[n - 2]] + [lights[n - 1]];
      PairAddsOne(lights[..n - 2], lights[n - 2], lights[n - 1], z);
    }
  }

  /** The seeded documents alternate Left and Right, pair by pair. */
  lemma {:induction false} PlanAlternates(lights: seq<Light>, m: nat)
    requires FieldsOf(lights) == Plan() && m <= Count
    ensures Alternating(lights, m)
  {
    if m > 0 {
      PlanAlternates(lights, m - 1);
      var k := 2 * m - 2;
      assert k % 2 == 0 && (k + 1) % 2 == 1;
      assert lights[k].Fields() == FieldsOf(lights)[k] == Planned(k);
      assert lights[k + 1].Fields() == FieldsOf(lights)[k + 1] == Planned(k + 1);
    }
  }

  /**
   * Once seeded, the table holds lights of two zones only, `Count` in
   * each, and reports 40 lights, all operational, at 100% health.
   */
  lemma SeededTotals(lights: seq<Light>)
    requires FieldsOf(lights) == Plan()
    ensures forall l :: l in lights ==> l.zone == LeftZone || l.zone == RightZone
    ensures |InZone(lights, LeftZone)| == Count
    ensures |InZone(lights, RightZone)| == Count
    ensures StatsOf(lights) == Stats(2 * Count, 2 * Count, 0, 100)
  {
    PlanAlternates(lights, Count);
    ZoneCountsPrefix(lights, Count, LeftZone);
    ZoneCountsPrefix(lights, Count, RightZone);
    assert lights[..2 * Count] == lights;
    forall l | l in lights ensures l.isOn && (l.zone == LeftZone || l.zone == RightZone) {
      var k :| 0 <= k < |lights| && lights[k] == l;
      assert FieldsOf(lights)[k] == l.Fields() == Planned(k);
    }
    StatsAllOn(lights);
  }

  /** `Seeded ${lights.length} lights` for the 40 lights the plan holds. */
  lemma SeededMessage()
    ensures "Seeded " + DecimalString(|Plan()|) + " lights" == "Seeded 40 lights"
  {
    assert DecimalString(4) == "4";
    assert DecimalString(40) == DecimalString(4) + [DigitChar(0)];
  }

  /** Pair `i` as the loop pushes it: Left first, then Right. */
  lemma PlannedPair(i: nat)
    ensures Planned(2 * i) == LeftLight(i) && Planned(2 * i + 1) == RightLight(i)
  {
    assert (2 * i) % 2 == 0 && (2 * i) / 2 == i;
    assert (2 * i + 1) % 2 == 1 && (2 * i + 1) / 2 == i;
  }

  /** The first loop: for each pair, compute its centreline point and push its two lights. */
  method BuildPairs() returns (lights: seq<LightFields>)
    ensures lights == Plan()
  {
    lights := [];
    for i := 0 to Count
      invariant |lights| == 2 * i
      invariant forall k :: 0 <= k < 2 * i ==> lights[k] == Planned(k)
    {
      var ratio := i as real / (Count - 1) as real;
      var lat := StartLat + (EndLat - StartLat) * ratio;
      var lng := StartLng + (EndLng - StartLng) * ratio;
      lights := lights + [LightFields(lat + Offset, lng - Offset, true, LeftZone, "L-" + DecimalString(i + 1), Some(Operational))];
      lights := lights + [LightFields(lat - Offset, lng + Offset, true, RightZone, "R-" + DecimalString(i + 1), Some(Operational))];
      PlannedPair(i);
    }
  }

  /**
   * `seedLights`: if the table has any light, return nothing and change
   * nothing; otherwise push the pairs, insert them in order, and report
   * the count.
   */
  method SeedLights(table: LightTable) returns (r: Option<string>)
    requires table.Valid()
    modifies table
    ensures table.Valid()
    ensures old(table.List()) != [] ==> r.None? && unchanged(table)
    ensures old(table.List()) == [] ==> r == Some("Seeded 40 lights") && FieldsOf(table.List()) == Plan()
  {
    var existing := table.List();
    if |existing| > 0 {
      return None;
    }

    var lights := BuildPairs();

    for k := 0 to |lights|
      invariant table.Valid()
      invariant FieldsOf(table.List()) == lights[..k]
    {
      ghost var before := table.List();
      var id := table.Insert(lights[k]);
      FieldsOfSnoc(before, lights[k].WithId(id));
      assert lights[..k + 1] == lights[..k] + [lights[k]];
    }
    assert lights[..|lights|] == lights;

    SeededMessage();
    r := Some("Seeded " + DecimalString(|lights|) + " lights");
  }

  /** Seeding a second time changes nothing: the table is as the first run left it. */
  method SeedTwice(table: LightTable) returns (first: Option<string>, second: Option<string>)
    requires table.Valid()
    modifies table
    ensures table.Valid()
    ensures second.None?
    ensures old(table.List()) == [] ==> first == Some("Seeded 40 lights") && FieldsOf(table.List()) == Plan()
    ensures old(table.List()) != [] ==> first.None? && unchanged(table)
  {
    first := SeedLights(table);
    second := SeedLights(table);
  }
}
