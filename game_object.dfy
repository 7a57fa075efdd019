/** The save/restore records of the IGameObject interface: a flat dictionary
    from keys to engine Variants. */
module GameObject {
  import opened Wrappers
  import opened Vectors

  datatype Variant = VVector2(v: Vec2) | VFloat(f: real) | VOther

  type Dictionary = map<string, Variant>

  datatype SerializeError = KeyNotFound(key: string) | NotImplemented

  /** Variant to Vector2; a Variant of another type converts to zero. */
  function AsVector2(v: Variant): (r: Vec2)
    ensures v.VVector2? ==> r == v.v
    ensures !v.VVector2? ==> r == Zero
  {
    if v.VVector2? then v.v else Zero
  }

  /** Variant to float; a Variant of another type converts to zero. */
  function AsSingle(v: Variant): (r: real)
    ensures v.VFloat? ==> r == v.f
    ensures !v.VFloat? ==> r == 0.0
  {
    if v.VFloat? then v.f else 0.0
  }

  /** `data[key]`; a missing key throws. */
  function Lookup(data: Dictionary, key: string): (r: Result<Variant, SerializeError>)
    ensures r.Ok? <==> key in data
    ensures r.Ok? ==> r.value == data[key]
  {
    if key in data then Ok(data[key]) else Err(KeyNotFound(key))
  }

  /** `data["position"]` read back as a Vector2. */
  function PositionOf(data: Dictionary): (r: Result<Vec2, SerializeError>)
    ensures r.Ok? <==> "position" in data
    ensures r.Ok? ==> r.value == AsVector2(data["position"])
    ensures r.Err? ==> r.error == KeyNotFound("position")
  {
    match Lookup(data, "position")
    case Ok(v) => Ok(AsVector2(v))
    case Err(e) => Err(e)
  }

  /** The record of an object that saves only its position; reading it back
      gives the position. */
  function PositionRecord(position: Vec2): (d: Dictionary)
    ensures d.Keys == {"position"}
    ensures PositionOf(d) == Ok(position)
  {
    map["position" := VVector2(position)]
  }
}
