/** The `lights` table: the one entity of the light inventory. */
module Schema {

  datatype Option<+T> = None | Some(value: T)

  /** A document id. The store assigns it; nothing else about it is observable. */
  type LightId = nat

  /** The user fields of a `lights` document, as `ctx.db.insert` takes them. */
  datatype LightFields = LightFields(
    lat: real,
    lng: real,
    isOn: bool,
    zone: string,
    labelText: string,
    status: Option<string>)
  {
    /** The stored document these fields become under id `id`; stripping the id gives the fields back. */
    function WithId(id: LightId): (l: Light)
      ensures l.id == id && l.Fields() == this
    {
      Light(id, lat, lng, isOn, zone, labelText, status)
    }
  }

  /** A stored document: its id and its fields. */
  datatype Light = Light(
    id: LightId,
    lat: real,
    lng: real,
    isOn: bool,
    zone: string,
    labelText: string,
    status: Option<string>)
  {
    function Fields(): LightFields {
      LightFields(lat, lng, isOn, zone, labelText, status)
    }
  }

  /** The documents with their ids stripped, position by position. */
  function FieldsOf(lights: seq<Light>): (r: seq<LightFields>)
    ensures |r| == |lights|
  {
    seq(|lights|, i requires 0 <= i < |lights| => lights[i].Fields())
  }

  /** Appending a document appends its fields. */
  lemma FieldsOfSnoc(lights: seq<Light>, l: Light)
    ensures FieldsOf(lights + [l]) == FieldsOf(lights) + [l.Fields()]
  {
  }

  /** No two documents share an id. */
  predicate UniqueIds(lights: seq<Light>) {
    forall i, j :: 0 <= i < j < |lights| ==> lights[i].id != lights[j].id
  }
}
