/** The nine payload decoders of `DecodeIncomingData` (the local `Parse*` functions,
    Kai.BaseModule/KaiSDK.cs:274-385) and the readings they produce. Each decoder either yields a
    reading or fails; a failure is an exception in the SDK and aborts the rest of the envelope. */
module Payload {

  import opened Wrappers
  import opened Json
  import opened DataTypes
  import C = Constants

  /** The fragment kinds, in the order of the `switch` at KaiSDK.cs:239-267. */
  datatype Kind =
    | GestureKind
    | FingerShortcutKind
    | PYRKind
    | QuaternionKind
    | LinearFlickKind
    | FingerPositionalKind
    | AccelerometerKind
    | GyroscopeKind
    | MagnetometerKind

  function KindTag(k: Kind): string
  {
    match k
    case GestureKind => C.GestureData
    case FingerShortcutKind => C.FingerShortcutData
    case PYRKind => C.PYRData
    case QuaternionKind => C.QuaternionData
    case LinearFlickKind => C.LinearFlickData
    case FingerPositionalKind => C.FingerPositionalData
    case AccelerometerKind => C.AccelerometerData
    case GyroscopeKind => C.GyroscopeData
    case MagnetometerKind => C.MagnetometerData
  }

  /** The fragment `switch` on its `type` string; `None` is its `default` branch, which a
      `null` type also reaches. */
  function KindOf(tag: Option<string>): (k: Option<Kind>)
    ensures k.Some? ==> tag == Some(KindTag(k.value))
  {
    match tag
    case None => None
    case Some(t) =>
      if t == C.GestureData then Some(GestureKind)
      else if t == C.FingerShortcutData then Some(FingerShortcutKind)
      else if t == C.PYRData then Some(PYRKind)
      else if t == C.QuaternionData then Some(QuaternionKind)
      else if t == C.LinearFlickData then Some(LinearFlickKind)
      else if t == C.FingerPositionalData then Some(FingerPositionalKind)
      else if t == C.AccelerometerData then Some(AccelerometerKind)
      else if t == C.GyroscopeData then Some(GyroscopeKind)
      else if t == C.MagnetometerData then Some(MagnetometerKind)
      else None
  }

  /** The payload of one event; the constructor is the event raised (`Gesture`,
      `UnknownGesture`, `LinearFlick`, ...). Floats are kept as reals. */
  datatype Reading =
    | GestureReading(gesture: Gesture)
    | UnknownGestureReading(name: Option<string>)
    | LinearFlickReading(flick: Option<string>)
    | FingerShortcutReading(fingers: seq<bool>)
    | FingerPositionalReading(positions: seq<int>)
    | PYRReading(pitch: real, yaw: real, roll: real)
    | QuaternionReading(quaternion: Quaternion)
    | AccelerometerReading(accelerometer: Vector3)
    | GyroscopeReading(gyroscope: Vector3)
    | MagnetometerReading(magnetometer: Vector3)

  /** The fragment kind whose `switch` branch raises the event of `r`. */
  function ReadingKind(r: Reading): Kind
  {
    match r
    case GestureReading(_) => GestureKind
    case UnknownGestureReading(_) => GestureKind
    case LinearFlickReading(_) => LinearFlickKind
    case FingerShortcutReading(_) => FingerShortcutKind
    case FingerPositionalReading(_) => FingerPositionalKind
    case PYRReading(_, _, _) => PYRKind
    case QuaternionReading(_) => QuaternionKind
    case AccelerometerReading(_) => AccelerometerKind
    case GyroscopeReading(_) => GyroscopeKind
    case MagnetometerReading(_) => MagnetometerKind
  }

  /** The shape the event arguments promise: four fingers, four 32-bit positions. */
  predicate WellFormed(r: Reading)
  {
    match r
    case FingerShortcutReading(fingers) => |fingers| == 4
    case FingerPositionalReading(positions) =>
      |positions| == 4 && forall i :: 0 <= i < 4 ==> Int32Min <= positions[i] <= Int32Max
    case _ => true
  }

  /** A JSON number, which `ToObject<float>` accepts. */
  predicate IsNumber(t: Option<Json>)
  {
    t.Some? && (t.value.JInt? || t.value.JFloat?)
  }

  /** A JSON string or `null`, which `ToObject<string>` accepts. */
  predicate IsNullableString(t: Option<Json>)
  {
    t == Some(JNull) || (t.Some? && t.value.JString?)
  }

  /** An object whose fields under `keys` are all numbers. */
  predicate IsNumberObject(t: Option<Json>, keys: seq<string>)
  {
    t.Some? && t.value.JObject? && forall k :: k in keys ==> IsNumber(Get(t.value.fields, k))
  }

  /** `ParseGestureData`: a known name (any case) gives a `Gesture` event, anything else an
      `UnknownGesture` event with the string as received (`null` included). */
  function DecodeGesture(frag: Object): (r: Result<Reading>)
    ensures r.Ok? <==> IsNullableString(Get(frag, C.Gesture))
    ensures r.Ok? ==> r.value.GestureReading? || r.value.UnknownGestureReading?
  {
    match ToStr(Get(frag, C.Gesture))
    case Failure => Failure
    case Ok(None) => Ok(UnknownGestureReading(None))
    case Ok(Some(name)) =>
      match ParseGesture(name)
      case Some(g) => Ok(GestureReading(g))
      case None => Ok(UnknownGestureReading(Some(name)))
  }

  /** `ParseLinearFlickData`: the flick string, not checked any further. */
  function DecodeLinearFlick(frag: Object): (r: Result<Reading>)
    ensures r.Ok? <==> IsNullableString(Get(frag, C.Flick))
    ensures r.Ok? ==> r.value.LinearFlickReading?
    ensures r.Ok? && r.value.flick.Some? ==> Get(frag, C.Flick) == Some(JString(r.value.flick.value))
    ensures r.Ok? && r.value.flick.None? ==> Get(frag, C.Flick) == Some(JNull)
  {
    match ToStr(Get(frag, C.Flick))
    case Failure => Failure
    case Ok(flick) => Ok(LinearFlickReading(flick))
  }

  /** `ParsePYRData`: the three angles are fields of the fragment itself. */
  function DecodePYR(frag: Object): (r: Result<Reading>)
    ensures r.Ok? <==> IsNumber(Get(frag, C.Pitch)) && IsNumber(Get(frag, C.Yaw)) && IsNumber(Get(frag, C.Roll))
    ensures r.Ok? ==> r.value.PYRReading?
  {
    var pitch, yaw, roll := ToFloat(Get(frag, C.Pitch)), ToFloat(Get(frag, C.Yaw)), ToFloat(Get(frag, C.Roll));
    if pitch.Ok? && yaw.Ok? && roll.Ok? then Ok(PYRReading(pitch.value, yaw.value, roll.value))
    else Failure
  }

  /** `ParseQuaternionData`: the object under `quaternion`, read as w, x, y, z. */
  function DecodeQuaternion(frag: Object): (r: Result<Reading>)
    ensures r.Ok? <==> IsNumberObject(Get(frag, C.Quaternion), [C.W, C.X, C.Y, C.Z])
    ensures r.Ok? ==> r.value.QuaternionReading?
  {
    match ToObj(Get(frag, C.Quaternion))
    case Failure => Failure
    case Ok(q) =>
      var w, x, y, z := ToFloat(Get(q, C.W)), ToFloat(Get(q, C.X)), ToFloat(Get(q, C.Y)), ToFloat(Get(q, C.Z));
      if w.Ok? && x.Ok? && y.Ok? && z.Ok? then Ok(QuaternionReading(Quaternion(w.value, x.value, y.value, z.value)))
      else Failure
  }

  /** The object under `key`, read as a `Vector3` (x, y, z). */
  function DecodeVector3(frag: Object, key: string): (r: Result<Vector3>)
    ensures r.Ok? <==> IsNumberObject(Get(frag, key), [C.X, C.Y, C.Z])
  {
    match ToObj(Get(frag, key))
    case Failure => Failure
    case Ok(v) =>
      var x, y, z := ToFloat(Get(v, C.X)), ToFloat(Get(v, C.Y)), ToFloat(Get(v, C.Z));
      if x.Ok? && y.Ok? && z.Ok? then Ok(Vector3(x.value, y.value, z.value)) else Failure
  }

  function DecodeAccelerometer(frag: Object): (r: Result<Reading>)
    ensures r.Ok? <==> IsNumberObject(Get(frag, C.Accelerometer), [C.X, C.Y, C.Z])
    ensures r.Ok? ==> r.value.AccelerometerReading?
  {
    match DecodeVector3(frag, C.Accelerometer)
    case Failure => Failure
    case Ok(v) => Ok(AccelerometerReading(v))
  }

  function DecodeGyroscope(frag: Object): (r: Result<Reading>)
    ensures r.Ok? <==> IsNumberObject(Get(frag, C.Gyroscope), [C.X, C.Y, C.Z])
    ensures r.Ok? ==> r.value.GyroscopeReading?
  {
    match DecodeVector3(frag, C.Gyroscope)
    case Failure => Failure
    case Ok(v) => Ok(GyroscopeReading(v))
  }

  function DecodeMagnetometer(frag: Object): (r: Result<Reading>)
    ensures r.Ok? <==> IsNumberObject(Get(frag, C.Magnetometer), [C.X, C.Y, C.Z])
    ensures r.Ok? ==> r.value.MagnetometerReading?
  {
    match DecodeVector3(frag, C.Magnetometer)
    case Failure => Failure
    case Ok(v) => Ok(MagnetometerReading(v))
  }

  /** A `fingers` value `ParseFingerShortcutData` gets through: an array of at most four
      booleans. */
  predicate IsFingerArray(t: Option<Json>)
  {
    t.Some? && t.value.JArray? && |t.value.items| <= 4
    && forall i :: 0 <= i < |t.value.items| ==> t.value.items[i].JBool?
  }

  /** What `ParseFingerShortcutData` computes: the `fingers` array must hold at most four
      booleans (a fifth entry indexes past the 4-element array); missing trailing entries stay
      `false`. */
  function DecodeFingerShortcut(frag: Object): (r: Result<Reading>)
    ensures r.Ok? <==> IsFingerArray(Get(frag, C.Fingers))
    ensures r.Ok? ==> r.value.FingerShortcutReading? && |r.value.fingers| == 4
  {
    match ToArray(Get(frag, C.Fingers))
    case Ok(Some(items)) =>
      if |items| <= 4 && forall i :: 0 <= i < |items| ==> items[i].JBool? then
        Ok(FingerShortcutReading(seq(4, i requires 0 <= i < 4 => i < |items| && items[i].b)))
      else Failure
    case _ => Failure  // absent, not an array, or `null` (whose `Count` throws)
  }

  /** The key under which entry `i` of the `fingers` object is read. */
  function IndexKey(i: nat): string
    requires i < 4
  {
    ["0", "1", "2", "3"][i]
  }

  /** A `fingers` value `ParseFingerPositionalData` gets through: an object of at most four
      entries whose entry `i`, read under the key "i", is a 32-bit integer. */
  predicate IsPositionObject(t: Option<Json>)
  {
    t.Some? && t.value.JObject? && |t.value.fields| <= 4
    && forall i :: 0 <= i < |t.value.fields| ==> ToInt(Get(t.value.fields, IndexKey(i))).Ok?
  }

  /** What `ParseFingerPositionalData` computes: `fingers` must be an object of at most four
      entries, entry `i` an `int`; missing trailing entries stay 0. */
  function DecodeFingerPositional(frag: Object): (r: Result<Reading>)
    ensures r.Ok? <==> IsPositionObject(Get(frag, C.Fingers))
    ensures r.Ok? ==> r.value.FingerPositionalReading? && WellFormed(r.value)
  {
    match ToObj(Get(frag, C.Fingers))
    case Ok(obj) =>
      if |obj| <= 4 && forall i :: 0 <= i < |obj| ==> ToInt(Get(obj, IndexKey(i))).Ok? then
        Ok(FingerPositionalReading(seq(4, i requires 0 <= i < 4 => if i < |obj| then ToInt(Get(obj, IndexKey(i))).value else 0)))
      else Failure
    case Failure => Failure
  }

  /** The decoder the fragment switch runs for a kind: each branch raises its own event. */
  function Decode(k: Kind, frag: Object): (r: Result<Reading>)
    ensures r.Ok? ==> ReadingKind(r.value) == k && WellFormed(r.value)
  {
    match k
    case GestureKind => DecodeGesture(frag)
    case FingerShortcutKind => DecodeFingerShortcut(frag)
    case PYRKind => DecodePYR(frag)
    case QuaternionKind => DecodeQuaternion(frag)
    case LinearFlickKind => DecodeLinearFlick(frag)
    case FingerPositionalKind => DecodeFingerPositional(frag)
    case AccelerometerKind => DecodeAccelerometer(frag)
    case GyroscopeKind => DecodeGyroscope(frag)
    case MagnetometerKind => DecodeMagnetometer(frag)
  }

  /** `ParseFingerShortcutData`'s loop: fill a fresh `bool[4]` from the array, entry by entry. */
  method ParseFingerShortcut(frag: Object) returns (r: Result<Reading>)
    ensures r == DecodeFingerShortcut(frag)
  {
    var list := ToArray(Get(frag, C.Fingers));
    if list.Failure? || list.value.None? {
      return Failure;
    }
    var dataArray := list.value.value;
    var fingers := new bool[4](_ => false);
    for i := 0 to |dataArray|
      invariant i <= 4
      invariant forall k :: 0 <= k < i ==> dataArray[k].JBool? && fingers[k] == dataArray[k].b
      invariant forall k :: i <= k < 4 ==> !fingers[k]
    {
      var b := ToBool(Some(dataArray[i]));
      if b.Failure? {
        return Failure;
      }
      if i >= fingers.Length {
        return Failure;  // IndexOutOfRangeException
      }
      fingers[i] := b.value;
    }
    assert fingers[..] == seq(4, i requires 0 <= i < 4 => i < |dataArray| && dataArray[i].b);
    r := Ok(FingerShortcutReading(fingers[..]));
  }

  /** `ParseFingerPositionalData`'s loop over the `fingers` object's `Count`. */
  method ParseFingerPositional(frag: Object) returns (r: Result<Reading>)
    ensures r == DecodeFingerPositional(frag)
  {
    var json := ToObj(Get(frag, C.Fingers));
    if json.Failure? {
      return Failure;
    }
    var obj := json.value;
    var fingers := new int[4](_ => 0);
    for i := 0 to |obj|
      invariant i <= 4
      invariant forall k :: 0 <= k < i ==> ToInt(Get(obj, IndexKey(k))).Ok? && fingers[k] == ToInt(Get(obj, IndexKey(k))).value
      invariant forall k :: i <= k < 4 ==> fingers[k] == 0
    {
      if i >= fingers.Length {
        return Failure;  // IndexOutOfRangeException
      }
      var v := ToInt(Get(obj, IndexKey(i)));
      if v.Failure? {
        return Failure;
      }
      fingers[i] := v.value;
    }
    assert fingers[..] == seq(4, i requires 0 <= i < 4 => if i < |obj| then ToInt(Get(obj, IndexKey(i))).value else 0);
    r := Ok(FingerPositionalReading(fingers[..]));
  }

  // ---------------------------------------------------------------- properties

  /** The fragment switch recognises exactly the nine tags, each as its own kind. */
  lemma KindOfIff(tag: Option<string>, k: Kind)
    ensures KindOf(tag) == Some(k) <==> tag == Some(KindTag(k))
  {
    if tag == Some(KindTag(k)) {
      match k
      case GestureKind =>
      case FingerShortcutKind =>
      case PYRKind =>
      case QuaternionKind =>
      case LinearFlickKind =>
      case FingerPositionalKind =>
      case AccelerometerKind =>
      case GyroscopeKind =>
      case MagnetometerKind =>
    }
  }

  /** A gesture fragment yields a `Gesture` event with `g` exactly when its string is `g`'s
      name up to case, and an `UnknownGesture` event carrying the string unchanged exactly
      when it is `null` or names no gesture. */
  lemma GestureDecoding(frag: Object, name: Option<string>)
    requires Get(frag, C.Gesture) == Some(if name.Some? then JString(name.value) else JNull)
    ensures forall g :: DecodeGesture(frag) == Ok(GestureReading(g)) <==> name.Some? && EqualsIgnoreCase(GestureName(g), name.value)
    ensures DecodeGesture(frag) == Ok(UnknownGestureReading(name))
            <==> name.None? || forall g :: !EqualsIgnoreCase(GestureName(g), name.value)
  {
    if name.Some? {
      forall g ensures ParseGesture(name.value) == Some(g) <==> EqualsIgnoreCase(GestureName(g), name.value) {
        ParseGestureIffName(name.value, g);
      }
    }
  }

  /** A name the enum does not have, such as "TripleTap", is passed on as an unknown gesture. */
  lemma UnknownGestureExample()
    ensures DecodeGesture(map[C.Gesture := JString("TripleTap")]) == Ok(UnknownGestureReading(Some("TripleTap")))
  {
    var name := "TripleTap";
    forall g ensures !EqualsIgnoreCase(GestureName(g), name) {
      // No gesture's name starts with a T.
      assert Lower(name)[0] == 't';
      assert GestureName(g)[0] in "SPGD";
      assert Lower(GestureName(g))[0] == LowerChar(GestureName(g)[0]);
    }
    GestureDecoding(map[C.Gesture := JString(name)], Some(name));
  }

  /** A known name in another case is recognised. */
  lemma KnownGestureExample()
    ensures DecodeGesture(map[C.Gesture := JString("swipeUP")]) == Ok(GestureReading(SwipeUp))
  {
    assert Lower(GestureName(SwipeUp)) == Lower("swipeUP");
    GestureDecoding(map[C.Gesture := JString("swipeUP")], Some("swipeUP"));
  }

  /** The JSON form of a finger shortcut: an array of booleans. */
  function FingersJson(fingers: seq<bool>): Json
  {
    JArray(seq(|fingers|, i requires 0 <= i < |fingers| => JBool(fingers[i])))
  }

  /** Four booleans decode to themselves; a shorter array is padded with `false`, so an
      explicit trailing `false` changes nothing; more than four entries fail. */
  lemma FingerShortcutRoundTrip(frag: Object, fingers: seq<bool>)
    requires Get(frag, C.Fingers) == Some(FingersJson(fingers))
    ensures |fingers| <= 4 ==> DecodeFingerShortcut(frag) == Ok(FingerShortcutReading(fingers + seq(4 - |fingers|, _ => false)))
    ensures |fingers| == 4 ==> DecodeFingerShortcut(frag) == Ok(FingerShortcutReading(fingers))
    ensures |fingers| < 4 ==> DecodeFingerShortcut(frag[C.Fingers := FingersJson(fingers + [false])]) == DecodeFingerShortcut(frag)
    ensures |fingers| > 4 ==> DecodeFingerShortcut(frag).Failure?
  {
    var items := FingersJson(fingers).items;
    if |fingers| <= 4 {
      assert seq(4, i requires 0 <= i < 4 => i < |items| && items[i].b) == fingers + seq(4 - |fingers|, _ => false);
      if |fingers| == 4 {
        assert fingers + seq(4 - |fingers|, _ => false) == fingers;
      }
    }
    if |fingers| < 4 {
      var padded := FingersJson(fingers + [false]).items;
      assert forall i :: 0 <= i < |padded| ==> padded[i].JBool?;
      assert seq(4, i requires 0 <= i < 4 => i < |padded| && padded[i].b)
          == seq(4, i requires 0 <= i < 4 => i < |items| && items[i].b);
    }
  }

  /** The JSON form of up to four finger positions: an object keyed "0".."3", one key per
      position. */
  function PositionsMap(positions: seq<int>): (m: Object)
    requires |positions| <= 4
    ensures |m| == |positions|
    ensures forall i :: 0 <= i < |positions| ==> IndexKey(i) in m && m[IndexKey(i)] == JInt(positions[i])
    ensures forall i :: |positions| <= i < 4 ==> IndexKey(i) !in m
    decreases |positions|
  {
    if positions == [] then map[]
    else
      var n := |positions| - 1;
      PositionsMap(positions[..n])[IndexKey(n) := JInt(positions[n])]
  }

  /** Up to four 32-bit positions decode to themselves, padded with 0 to four. */
  lemma {:induction false} FingerPositionalRoundTrip(frag: Object, positions: seq<int>)
    requires |positions| <= 4 && forall i :: 0 <= i < |positions| ==> Int32Min <= positions[i] <= Int32Max
    requires Get(frag, C.Fingers) == Some(JObject(PositionsMap(positions)))
    ensures DecodeFingerPositional(frag) == Ok(FingerPositionalReading(positions + seq(4 - |positions|, _ => 0)))
  {
    var obj := PositionsMap(positions);
    forall i | 0 <= i < |positions|
      ensures ToInt(Get(obj, IndexKey(i))) == Ok(positions[i])
    {
      assert Get(obj, IndexKey(i)) == Some(JInt(positions[i]));
    }
    assert IsPositionObject(Get(frag, C.Fingers));
    var decoded := seq(4, i requires 0 <= i < 4 => if i < |obj| then ToInt(Get(obj, IndexKey(i))).value else 0);
    var padded := positions + seq(4 - |positions|, _ => 0);
    assert forall i :: 0 <= i < 4 ==> decoded[i] == padded[i];
    assert decoded == padded;
  }

  function Vector3Json(v: Vector3): Json
  {
    JObject(map[C.X := JFloat(v.x), C.Y := JFloat(v.y), C.Z := JFloat(v.z)])
  }

  function QuaternionJson(q: Quaternion): Json
  {
    JObject(map[C.W := JFloat(q.w), C.X := JFloat(q.x), C.Y := JFloat(q.y), C.Z := JFloat(q.z)])
  }

  /** The sensor readings decode back from their JSON form: x, y, z for the three vectors,
      w, x, y, z for the quaternion, and the three angles from the fragment itself. */
  lemma SensorRoundTrips(frag: Object, v: Vector3, q: Quaternion, pitch: real, yaw: real, roll: real)
    ensures Get(frag, C.Accelerometer) == Some(Vector3Json(v)) ==> DecodeAccelerometer(frag) == Ok(AccelerometerReading(v))
    ensures Get(frag, C.Gyroscope) == Some(Vector3Json(v)) ==> DecodeGyroscope(frag) == Ok(GyroscopeReading(v))
    ensures Get(frag, C.Magnetometer) == Some(Vector3Json(v)) ==> DecodeMagnetometer(frag) == Ok(MagnetometerReading(v))
    ensures Get(frag, C.Quaternion) == Some(QuaternionJson(q)) ==> DecodeQuaternion(frag) == Ok(QuaternionReading(q))
    ensures Get(frag, C.Pitch) == Some(JFloat(pitch)) && Get(frag, C.Yaw) == Some(JFloat(yaw)) && Get(frag, C.Roll) == Some(JFloat(roll)) ==>
              DecodePYR(frag) == Ok(PYRReading(pitch, yaw, roll))
  {
  }
}
