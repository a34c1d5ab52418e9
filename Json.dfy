/** JSON values as the SDK sees them after parsing, and the conversions it applies to them.

    `JToken.ToObject<T>()` is modelled strictly: a token of the matching JSON type converts,
    every other token throws. A key that is absent from an object reads as C#'s `null`, and
    calling `ToObject` on `null` throws as well. */
module Json {

  import opened Wrappers

  datatype Json =
    | JNull
    | JBool(b: bool)
    | JInt(i: int)
    | JFloat(f: real)
    | JString(s: string)
    | JArray(items: seq<Json>)
    | JObject(fields: map<string, Json>)

  type Object = map<string, Json>

  /** One `key: value` pair of an outgoing object, in the order it was added. */
  datatype Field = Field(key: string, value: Json)

  const Int32Min: int := -0x8000_0000
  const Int32Max: int := 0x7FFF_FFFF

  /** `obj[key]`: `None` stands for the C# `null` an absent key gives. */
  function Get(obj: Object, key: string): Option<Json>
  {
    if key in obj then Some(obj[key]) else None
  }

  /** `t.ToObject<bool>()` */
  function ToBool(t: Option<Json>): (r: Result<bool>)
    ensures r.Ok? <==> t.Some? && t.value.JBool?
    ensures t.Some? && t.value.JBool? ==> r == Ok(t.value.b)
  {
    match t
    case Some(JBool(b)) => Ok(b)
    case _ => Failure
  }

  /** `t?.ToObject<bool>()`, a `bool?`: an absent key gives `null` instead of throwing. */
  function ToNullableBool(t: Option<Json>): (r: Result<Option<bool>>)
    ensures r.Ok? <==> t.None? || t.value.JBool?
    ensures t.None? ==> r == Ok(None)
    ensures t.Some? && t.value.JBool? ==> r == Ok(Some(t.value.b))
  {
    match t
    case None => Ok(None)
    case Some(JBool(b)) => Ok(Some(b))
    case _ => Failure
  }

  /** `t.ToObject<int>()`: a C# `int` is 32 bits wide, a wider number throws. */
  function ToInt(t: Option<Json>): (r: Result<int>)
    ensures r.Ok? <==> t.Some? && t.value.JInt? && Int32Min <= t.value.i <= Int32Max
    ensures r.Ok? ==> t == Some(JInt(r.value))
  {
    match t
    case Some(JInt(i)) => if Int32Min <= i <= Int32Max then Ok(i) else Failure
    case _ => Failure
  }

  /** `t.ToObject<float>()`: any JSON number; rounding to single precision is not modelled. */
  function ToFloat(t: Option<Json>): (r: Result<real>)
    ensures r.Ok? <==> t.Some? && (t.value.JInt? || t.value.JFloat?)
    ensures t.Some? && t.value.JInt? ==> r == Ok(t.value.i as real)
    ensures t.Some? && t.value.JFloat? ==> r == Ok(t.value.f)
  {
    match t
    case Some(JInt(i)) => Ok(i as real)
    case Some(JFloat(f)) => Ok(f)
    case _ => Failure
  }

  /** `t.ToObject<string>()`: JSON `null` converts to the `null` string (`None`). */
  function ToStr(t: Option<Json>): (r: Result<Option<string>>)
    ensures r.Ok? <==> t == Some(JNull) || (t.Some? && t.value.JString?)
    ensures t == Some(JNull) ==> r == Ok(None)
    ensures t.Some? && t.value.JString? ==> r == Ok(Some(t.value.s))
  {
    match t
    case Some(JNull) => Ok(None)
    case Some(JString(s)) => Ok(Some(s))
    case _ => Failure
  }

  /** `t.ToObject<JArray>()`: JSON `null` converts to a `null` array (`None`). */
  function ToArray(t: Option<Json>): (r: Result<Option<seq<Json>>>)
    ensures r.Ok? <==> t == Some(JNull) || (t.Some? && t.value.JArray?)
    ensures t == Some(JNull) ==> r == Ok(None)
    ensures t.Some? && t.value.JArray? ==> r == Ok(Some(t.value.items))
  {
    match t
    case Some(JNull) => Ok(None)
    case Some(JArray(items)) => Ok(Some(items))
    case _ => Failure
  }

  /** `t.ToObject<JObject>()` followed by an access to the object: a `null` object
      (from JSON `null`) throws at that access, so it fails here already. */
  function ToObj(t: Option<Json>): (r: Result<Object>)
    ensures r.Ok? <==> t.Some? && t.value.JObject?
    ensures t.Some? && t.value.JObject? ==> r == Ok(t.value.fields)
  {
    match t
    case Some(JObject(m)) => Ok(m)
    case _ => Failure
  }
}
