/** The property draft collected by the estimate wizard (`formData` in
    app/estimate/page.tsx). The page keys the record by field name and its
    `updateFormData` accepts any key and any value, so the draft is a map from
    field names to loosely typed values. */
module PropertyDraft {

  /** The shapes of value the page stores: text from inputs and selects, the
      number array a range slider reports, a geocoded coordinate, and `null`. */
  datatype Value = Text(text: string) | Numbers(values: seq<int>) | Number(number: real) | Null

  type Draft = map<string, Value>

  const ADDRESS: string := "address"
  const PROPERTY_TYPE: string := "propertyType"
  const SURFACE: string := "surface"
  const ROOMS: string := "rooms"
  const BEDROOMS: string := "bedrooms"
  const BATHROOMS: string := "bathrooms"
  const YEAR: string := "year"
  const CONDITION: string := "condition"
  const PARKING: string := "parking"
  const GARDEN: string := "garden"
  const BALCONY: string := "balcony"
  const FLOOR: string := "floor"
  const ELEVATOR: string := "elevator"
  const LATITUDE: string := "latitude"
  const LONGITUDE: string := "longitude"

  /** The fields the draft is created with. */
  const FIELD_NAMES: set<string> :=
    {ADDRESS, PROPERTY_TYPE, SURFACE, ROOMS, BEDROOMS, BATHROOMS, YEAR, CONDITION,
     PARKING, GARDEN, BALCONY, FLOOR, ELEVATOR, LATITUDE, LONGITUDE}

  /** The draft the wizard starts from: every text field empty, the two
      slider fields holding a one-element array, no coordinates yet. */
  function Initial(): (d: Draft)
    ensures d.Keys == FIELD_NAMES
    ensures d[SURFACE] == Numbers([100]) && d[YEAR] == Numbers([2000])
    ensures d[LATITUDE] == Null && d[LONGITUDE] == Null
    ensures forall k :: k in d && k != SURFACE && k != YEAR && k != LATITUDE && k != LONGITUDE ==>
              d[k] == Text("")
  {
    map[ADDRESS := Text(""), PROPERTY_TYPE := Text(""), SURFACE := Numbers([100]),
        ROOMS := Text(""), BEDROOMS := Text(""), BATHROOMS := Text(""), YEAR := Numbers([2000]),
        CONDITION := Text(""), PARKING := Text(""), GARDEN := Text(""), BALCONY := Text(""),
        FLOOR := Text(""), ELEVATOR := Text(""), LATITUDE := Null, LONGITUDE := Null]
  }

  /** `{ ...prev, [field]: value }`: one field replaced, with no check on the
      key or the value. */
  function Set(d: Draft, field: string, value: Value): (r: Draft)
    ensures r.Keys == d.Keys + {field}
    ensures r[field] == value
    ensures forall k :: k in d && k != field ==> r[k] == d[k]
  {
    d[field := value]
  }

  /** `{ ...formData, latitude, longitude }`: the draft with the geocoded
      coordinates written over its two coordinate fields. */
  function WithCoordinates(d: Draft, latitude: real, longitude: real): (r: Draft)
    ensures r.Keys == d.Keys + {LATITUDE, LONGITUDE}
    ensures r[LATITUDE] == Number(latitude) && r[LONGITUDE] == Number(longitude)
    ensures forall k :: k in d && k != LATITUDE && k != LONGITUDE ==> r[k] == d[k]
  {
    d[LATITUDE := Number(latitude)][LONGITUDE := Number(longitude)]
  }
}
