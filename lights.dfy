/**
 * The light store (convex/lights.ts): the `lights` table, its reads
 * `list` and `get`, its mutations `toggle` and `setStatus`, and the
 * `getStats` query computed from a snapshot of the table.
 */
module Lights {
  import opened Schema

  /** The message both mutations throw for an id with no document. */
  const NotFound: string := "Light not found"

  /** What a mutation reports: completion, or the error it throws. */
  datatype Outcome = Done | Failed(message: string)

  // ---------------------------------------------------------------------
  // Snapshot functions
  // ---------------------------------------------------------------------

  /** The lights whose `isOn` equals `on`, in list order (`filter`). */
  function InState(lights: seq<Light>, on: bool): (r: seq<Light>)
    ensures |r| <= |lights|
  {
    if lights == [] then []
    else
      var init := lights[..|lights| - 1];
      var last := lights[|lights| - 1];
      assert lights == init + [last];
      if last.isOn == on then InState(init, on) + [last] else InState(init, on)
  }

  lemma InStateSnoc(lights: seq<Light>, l: Light, on: bool)
    ensures InState(lights + [l], on) == InState(lights, on) + (if l.isOn == on then [l] else [])
  {
    assert (lights + [l])[..|lights|] == lights;
  }

  /** The filter keeps exactly the lights in state `on`. */
  lemma {:induction false} InStateMembers(lights: seq<Light>, on: bool)
    ensures forall l :: l in InState(lights, on) <==> l in lights && l.isOn == on
  {
    if lights != [] {
      var init, last := lights[..|lights| - 1], lights[|lights| - 1];
      assert lights == init + [last];
      InStateMembers(init, on);
      InStateSnoc(init, last, on);
    }
  }

  /** Filtering by state keeps relative order: it distributes over concatenation. */
  lemma {:induction false} InStateAppend(a: seq<Light>, b: seq<Light>, on: bool)
    ensures InState(a + b, on) == InState(a, on) + InState(b, on)
  {
    if b != [] {
      var init, last := b[..|b| - 1], b[|b| - 1];
      assert b == init + [last];
      assert a + b == (a + init) + [last];
      InStateAppend(a, init, on);
      InStateSnoc(a + init, last, on);
      InStateSnoc(init, last, on);
    } else {
      assert a + b == a;
    }
  }

  /** Every light is either on or off: the two filters split the list. */
  lemma {:induction false} InStatePartition(lights: seq<Light>)
    ensures |InState(lights, true)| + |InState(lights, false)| == |lights|
  {
    if lights != [] {
      InStatePartition(lights[..|lights| - 1]);
    }
  }

  /** All lights are on exactly when the "on" filter keeps all of them. */
  lemma {:induction false} AllOnIff(lights: seq<Light>)
    ensures |InState(lights, true)| == |lights| <==> forall l :: l in lights ==> l.isOn
  {
    if lights != [] {
      var init := lights[..|lights| - 1];
      var last := lights[|lights| - 1];
      assert lights == init + [last];
      AllOnIff(init);
    }
  }

  /**
   * `Math.round(operational / total * 100)` when `total > 0`, else 0,
   * computed exactly: the nearest integer to the percentage, halves up.
   */
  function Health(operational: nat, total: nat): (h: nat)
    requires operational <= total
    ensures h <= 100
    ensures total == 0 ==> h == 0
    ensures total > 0 ==> 2 * total * h <= 200 * operational + total < 2 * total * (h + 1)
  {
    if total > 0 then
      var h := (200 * operational + total) / (2 * total);
      HealthBound(operational, total, h);
      h
    else 0
  }

  lemma DivBounds(a: nat, b: nat)
    requires b > 0
    ensures b * (a / b) <= a < b * (a / b) + b
  {
  }

  lemma MulLeft(b: nat, x: nat, y: nat)
    requires x <= y
    ensures b * x <= b * y
  {
    assert b * y == b * x + b * (y - x);
  }

  /** The quotient is the one q with b*q <= a < b*(q+1). */
  lemma DivUnique(a: nat, b: nat, q: nat)
    requires b > 0 && b * q <= a < b * (q + 1)
    ensures a / b == q
  {
    var d := a / b;
    DivBounds(a, b);
    if d < q {
      MulLeft(b, d + 1, q);
      assert false;
    } else if d > q {
      MulLeft(b, q + 1, d);
      assert false;
    }
  }

  lemma HealthBound(operational: nat, total: nat, h: nat)
    requires 0 < total && operational <= total
    requires h == (200 * operational + total) / (2 * total)
    ensures 2 * total * h <= 200 * operational + total < 2 * total * (h + 1)
    ensures h <= 100
  {
    var a, b := 200 * operational + total, 2 * total;
    DivBounds(a, b);
    assert b * h <= a < b * h + b;
    assert b * (h + 1) == b * h + b;
    assert 2 * total * h == b * h;
    assert 2 * total * (h + 1) == b * (h + 1);
    if h > 100 {
      MulLeft(b, 101, h);
      assert false;
    }
  }

  lemma RealCancel(t: real, x: real, y: real)
    requires t > 0.0 && t * x <= t * y
    ensures x <= y
  {
  }

  lemma RealCancelStrict(t: real, x: real, y: real)
    requires t > 0.0 && t * x < t * y
    ensures x < y
  {
  }

  lemma CastMul(a: int, b: int)
    ensures (a * b) as real == (a as real) * (b as real)
  {
  }

  lemma BoundsAsReals(o: nat, total: nat, h: nat)
    requires 2 * total * h <= 200 * o + total < 2 * total * (h + 1)
    ensures var t, hr := total as real, h as real;
      (2.0 * t) * hr <= 200.0 * (o as real) + t < (2.0 * t) * (hr + 1.0)
  {
    var b := 2 * total;
    CastMul(b, h);
    CastMul(b, h + 1);
    CastMul(200, o);
  }

  /** An h within half of 100*o/t, from bounds in multiplied-out form. */
  lemma RealRound(o: real, t: real, h: real)
    requires t > 0.0
    requires (2.0 * t) * h <= 200.0 * o + t < (2.0 * t) * (h + 1.0)
    ensures h - 0.5 <= 100.0 * o / t < h + 0.5
  {
    var p := 100.0 * o / t;
    assert p * t == 100.0 * o;
    var m := 200.0 * o + t;
    var mid, hi := (2.0 * t) * (p + 0.5), (2.0 * t) * (h + 1.0);
    assert mid == 2.0 * (p * t) + t;
    assert mid == m;
    RealCancel(2.0 * t, h, p + 0.5);
    assert 2.0 * t > 0.0;
    assert m < hi;
    assert mid < hi;
    RealCancelStrict(2.0 * t, p + 0.5, h + 1.0);
  }

  /**
   * Health is the exact percentage of lights on, rounded to the nearest
   * integer with halves going up (what `Math.round` does for x >= 0).
   */
  lemma HealthIsRoundedPercent(operational: nat, total: nat)
    requires 0 < total && operational <= total
    ensures var p := 100.0 * (operational as real) / (total as real);
      (Health(operational, total) as real) - 0.5 <= p < (Health(operational, total) as real) + 0.5
  {
    var h := Health(operational, total);
    BoundsAsReals(operational, total, h);
    RealRound(operational as real, total as real, h as real);
  }

  datatype Stats = Stats(total: nat, operational: nat, failed: nat, health: nat)

  /** `getStats` over a snapshot of the table. */
  function StatsOf(lights: seq<Light>): (s: Stats)
    ensures s.total == |lights|
    ensures s.operational == |InState(lights, true)|
    ensures s.failed == |InState(lights, false)|
    ensures s.operational + s.failed == s.total
    ensures s.health <= 100
    ensures s.total == 0 ==> s.health == 0
    ensures s.total > 0 ==>
      2 * s.total * s.health <= 200 * s.operational + s.total < 2 * s.total * (s.health + 1)
  {
    var total := |lights|;
    var operational := |InState(lights, true)|;
    InStatePartition(lights);
    Stats(total, operational, total - operational, Health(operational, total))
  }

  /** 40 lights of which 5 are off give 35 operational and health 88. */
  lemma StatsFortyWithFiveOff(lights: seq<Light>)
    requires |lights| == 40 && |InState(lights, false)| == 5
    ensures StatsOf(lights) == Stats(40, 35, 5, 88)
  {
    InStatePartition(lights);
  }

  /** A snapshot whose lights are all on is fully healthy. */
  lemma StatsAllOn(lights: seq<Light>)
    requires |lights| > 0
    requires forall l :: l in lights ==> l.isOn
    ensures StatsOf(lights) == Stats(|lights|, |lights|, 0, 100)
  {
    AllOnIff(lights);
    var n := |lights|;
    DivUnique(200 * n + n, 2 * n, 100);
  }

  /** The snapshot after `patch(id, { isOn: on })`. */
  function SetIsOn(lights: seq<Light>, id: LightId, on: bool): seq<Light> {
    seq(|lights|, i requires 0 <= i < |lights| =>
      if lights[i].id == id then lights[i].(isOn := on) else lights[i])
  }

  /** Setting the same state twice is the same as setting it once. */
  lemma SetIsOnIdempotent(lights: seq<Light>, id: LightId, on: bool)
    ensures SetIsOn(SetIsOn(lights, id, on), id, on) == SetIsOn(lights, id, on)
  {
  }

  /** Toggling the same light twice restores the snapshot. */
  lemma ToggleTwiceRestores(lights: seq<Light>, k: nat)
    requires UniqueIds(lights) && k < |lights|
    ensures var id := lights[k].id;
      SetIsOn(SetIsOn(lights, id, !lights[k].isOn), id, lights[k].isOn) == lights
  {
    var id := lights[k].id;
    var r := SetIsOn(SetIsOn(lights, id, !lights[k].isOn), id, lights[k].isOn);
    assert forall i :: 0 <= i < |lights| ==> r[i] == lights[i];
  }

  lemma SetIsOnSnoc(init: seq<Light>, last: Light, id: LightId, on: bool)
    ensures SetIsOn(init + [last], id, on)
         == SetIsOn(init, id, on) + [if last.id == id then last.(isOn := on) else last]
  {
  }

  /** The operational count of a patched snapshot, one light at a time from the end. */
  lemma OperationalSnoc(init: seq<Light>, last: Light, id: LightId, on: bool)
    ensures |InState(SetIsOn(init + [last], id, on), true)|
         == |InState(SetIsOn(init, id, on), true)| + (if (if last.id == id then on else last.isOn) then 1 else 0)
  {
    var last' := if last.id == id then last.(isOn := on) else last;
    SetIsOnSnoc(init, last, id, on);
    InStateSnoc(SetIsOn(init, id, on), last', true);
  }

  /** Patching an id that no light has changes nothing. */
  lemma SetIsOnAbsent(lights: seq<Light>, id: LightId, on: bool)
    requires forall i :: 0 <= i < |lights| ==> lights[i].id != id
    ensures SetIsOn(lights, id, on) == lights
  {
  }

  /**
   * Patching one light's state moves the operational count by the change
   * of that light alone.
   */
  lemma {:induction false} SetIsOnOperational(lights: seq<Light>, k: nat, on: bool)
    requires UniqueIds(lights) && k < |lights|
    ensures |InState(SetIsOn(lights, lights[k].id, on), true)|
         == |InState(lights, true)| - (if lights[k].isOn then 1 else 0) + (if on then 1 else 0)
  {
    var id := lights[k].id;
    var n := |lights|;
    var init, last := lights[..n - 1], lights[n - 1];
    assert lights == init + [last];
    OperationalSnoc(init, last, id, on);
    InStateSnoc(init, last, true);
    if k == n - 1 {
      SetIsOnAbsent(init, id, on);
    } else {
      assert last.id != id;
      assert UniqueIds(init);
      SetIsOnOperational(init, k, on);
    }
  }

  // ---------------------------------------------------------------------
  // The table
  // ---------------------------------------------------------------------

  /**
   * The `lights` table: documents by id, the ids in insertion order (the
   * order `collect()` returns them), and the next id to assign.
   */
  class LightTable {
    var docs: map<LightId, Light>
    var order: seq<LightId>
    var nextId: LightId

    ghost predicate Valid()
      reads this
    {
      && (forall i, j :: 0 <= i < j < |order| ==> order[i] != order[j])
      && (forall id :: id in docs <==> id in order)
      && (forall id :: id in docs ==> docs[id].id == id && id < nextId)
    }

    constructor ()
      ensures Valid() && List() == []
    {
      docs, order, nextId := map[], [], 0;
    }

    /** `list`: every document, in insertion order. */
    function List(): (r: seq<Light>)
      reads this
      requires Valid()
      ensures |r| == |order|
      ensures UniqueIds(r)
      ensures forall i :: 0 <= i < |r| ==> Get(r[i].id) == Some(r[i])
      ensures forall id :: Get(id).Some? ==> Get(id).value in r
    {
      var r := seq(|order|, i requires 0 <= i < |order| && order[i] in docs reads this => docs[order[i]]);
      assert forall id :: id in docs ==> docs[id] in r by {
        forall id | id in docs ensures docs[id] in r {
          var i :| 0 <= i < |order| && order[i] == id;
          assert r[i] == docs[id];
        }
      }
      r
    }

    /** `get`: the document with this id, if there is one. */
    function Get(id: LightId): (r: Option<Light>)
      reads this
      requires Valid()
      ensures r.Some? <==> id in order
      ensures r.Some? ==> r.value.id == id
    {
      if id in docs then Some(docs[id]) else None
    }

    /** `ctx.db.patch(id, { isOn: on })` on a document that exists. */
    method Patch(id: LightId, on: bool)
      requires Valid() && id in docs
      modifies this
      ensures Valid() && order == old(order) && nextId == old(nextId)
      ensures docs == old(docs)[id := old(docs[id]).(isOn := on)]
      ensures List() == SetIsOn(old(List()), id, on)
    {
      ghost var before := List();
      docs := docs[id := docs[id].(isOn := on)];
      assert forall i :: 0 <= i < |order| ==> List()[i] == SetIsOn(before, id, on)[i];
    }

    /** `toggle`: flip one light, or fail with "Light not found". */
    method Toggle(id: LightId) returns (r: Outcome)
      requires Valid()
      modifies this
      ensures Valid()
      ensures old(Get(id)).None? ==> r == Failed(NotFound) && unchanged(this)
      ensures old(Get(id)).Some? ==>
        && r == Done
        && order == old(order) && nextId == old(nextId)
        && docs == old(docs)[id := old(docs[id]).(isOn := !old(docs[id]).isOn)]
        && List() == SetIsOn(old(List()), id, !old(docs[id]).isOn)
    {
      var light := Get(id);
      if light.None? {
        return Failed(NotFound);
      }
      Patch(id, !light.value.isOn);
      r := Done;
    }

    /** `setStatus`: set one light's state, or fail with "Light not found". */
    method SetStatus(id: LightId, isOn: bool) returns (r: Outcome)
      requires Valid()
      modifies this
      ensures Valid()
      ensures old(Get(id)).None? ==> r == Failed(NotFound) && unchanged(this)
      ensures old(Get(id)).Some? ==>
        && r == Done
        && order == old(order) && nextId == old(nextId)
        && docs == old(docs)[id := old(docs[id]).(isOn := isOn)]
        && List() == SetIsOn(old(List()), id, isOn)
    {
      var light := Get(id);
      if light.None? {
        return Failed(NotFound);
      }
      Patch(id, isOn);
      r := Done;
    }

    /** `getStats` over the current contents of the table. */
    function GetStats(): (s: Stats)
      reads this
      requires Valid()
      ensures s.total == |order|
      ensures s.operational + s.failed == s.total && s.health <= 100
    {
      StatsOf(List())
    }

    /** `ctx.db.insert`: append a document under a fresh id. */
    method Insert(f: LightFields) returns (id: LightId)
      requires Valid()
      modifies this
      ensures Valid()
      ensures old(Get(id)).None?
      ensures List() == old(List()) + [f.WithId(id)]
    {
      ghost var before := List();
      id := nextId;
      assert id !in docs;
      assert forall i :: 0 <= i < |order| ==> order[i] in docs && order[i] != id;
      docs := docs[id := f.WithId(id)];
      order := order + [id];
      nextId := nextId + 1;
      assert forall i :: 0 <= i < |before| ==> List()[i] == before[i];
    }
  }
}
