/** The enumerations and payload shapes the dispatch engine decodes into
    (Kai.BaseModule/DataTypes.cs). */
module DataTypes {

  import opened Wrappers

  /** `KaiCapabilities`. Although the C# enum carries `[Flags]`, its members have the implicit
      values 0..8 in declaration order, not powers of two. */
  datatype KaiCapabilities =
    | GestureData
    | LinearFlickData
    | FingerShortcutData
    | FingerPositionalData
    | PYRData
    | QuaternionData
    | AccelerometerData
    | GyroscopeData
    | MagnetometerData

  const AllCapabilities: seq<KaiCapabilities> :=
    [GestureData, LinearFlickData, FingerShortcutData, FingerPositionalData, PYRData,
     QuaternionData, AccelerometerData, GyroscopeData, MagnetometerData]

  /** The underlying `int` of a capability, as a 32-bit pattern. */
  function CapabilityValue(c: KaiCapabilities): bv32
  {
    match c
    case GestureData => 0
    case LinearFlickData => 1
    case FingerShortcutData => 2
    case FingerPositionalData => 3
    case PYRData => 4
    case QuaternionData => 5
    case AccelerometerData => 6
    case GyroscopeData => 7
    case MagnetometerData => 8
  }

  /** `Enum.HasFlag`: every bit of the flag's value is set in the mask. */
  predicate HasFlag(mask: bv32, c: KaiCapabilities)
  {
    mask & CapabilityValue(c) == CapabilityValue(c)
  }

  /** `Gesture`, in declaration order. */
  datatype Gesture =
    | SwipeUp | SwipeDown | SwipeLeft | SwipeRight
    | SideSwipeUp | SideSwipeDown | SideSwipeLeft | SideSwipeRight
    | Pinch2Begin | Pinch2End | GrabBegin | GrabEnd
    | Pinch3Begin | Pinch3End | DialBegin | DialEnd

  const AllGestures: seq<Gesture> :=
    [SwipeUp, SwipeDown, SwipeLeft, SwipeRight,
     SideSwipeUp, SideSwipeDown, SideSwipeLeft, SideSwipeRight,
     Pinch2Begin, Pinch2End, GrabBegin, GrabEnd,
     Pinch3Begin, Pinch3End, DialBegin, DialEnd]

  /** The member's name, which is what `Enum.TryParse` matches against. */
  function GestureName(g: Gesture): string
  {
    match g
    case SwipeUp => "SwipeUp"
    case SwipeDown => "SwipeDown"
    case SwipeLeft => "SwipeLeft"
    case SwipeRight => "SwipeRight"
    case SideSwipeUp => "SideSwipeUp"
    case SideSwipeDown => "SideSwipeDown"
    case SideSwipeLeft => "SideSwipeLeft"
    case SideSwipeRight => "SideSwipeRight"
    case Pinch2Begin => "Pinch2Begin"
    case Pinch2End => "Pinch2End"
    case GrabBegin => "GrabBegin"
    case GrabEnd => "GrabEnd"
    case Pinch3Begin => "Pinch3Begin"
    case Pinch3End => "Pinch3End"
    case DialBegin => "DialBegin"
    case DialEnd => "DialEnd"
  }

  /** `Hand`; `Left` is the enum's zero value and so the default of a fresh `Kai`. */
  datatype Hand = Left | Right

  function HandName(h: Hand): string
  {
    match h
    case Left => "Left"
    case Right => "Right"
  }

  datatype Vector3 = Vector3(x: real, y: real, z: real)

  datatype Quaternion = Quaternion(w: real, x: real, y: real, z: real)

  /** Case folding of one character (ASCII letters only). */
  function LowerChar(c: char): char
  {
    if 'A' <= c <= 'Z' then (c as int + 32) as char else c
  }

  function Lower(s: string): (r: string)
    ensures |r| == |s|
    ensures forall i :: 0 <= i < |s| ==> r[i] == LowerChar(s[i])
  {
    seq(|s|, i requires 0 <= i < |s| => LowerChar(s[i]))
  }

  predicate EqualsIgnoreCase(a: string, b: string)
  {
    Lower(a) == Lower(b)
  }

  /** The first gesture of `gs` whose name equals `s` ignoring case. */
  function FindGesture(s: string, gs: seq<Gesture>): (r: Option<Gesture>)
    ensures r.Some? ==> r.value in gs && EqualsIgnoreCase(GestureName(r.value), s)
  {
    if gs == [] then None
    else if EqualsIgnoreCase(GestureName(gs[0]), s) then Some(gs[0])
    else FindGesture(s, gs[1..])
  }

  /** `Enum.TryParse(s, true, out Gesture g)` on a non-null string, by name only. */
  function ParseGesture(s: string): Option<Gesture>
  {
    FindGesture(s, AllGestures)
  }

  /** `Enum.TryParse(hand, true, out Hand h)`, with `Hand.Left` where that fails
      (KaiSDK.cs:536-537); a `null` string fails. */
  function ParseHandOrLeft(s: Option<string>): (h: Hand)
    ensures h == Right <==> s.Some? && EqualsIgnoreCase(s.value, "Right")
    ensures s.Some? && EqualsIgnoreCase(s.value, "Left") ==> h == Left
  {
    match s
    case Some(name) =>
      if EqualsIgnoreCase(HandName(Left), name) then Left
      else if EqualsIgnoreCase(HandName(Right), name) then Right
      else Left
    case None => Left
  }

  /** The nine capabilities have the values 0..8 in declaration order, so the list above
      names each member once. */
  lemma CapabilityValuesInDeclarationOrder()
    ensures |AllCapabilities| == 9
    ensures forall i :: 0 <= i < 9 ==> CapabilityValue(AllCapabilities[i]) == i as bv32
    ensures forall c :: c in AllCapabilities
  {
    forall c ensures c in AllCapabilities {
      assert AllCapabilities[CapabilityValue(c) as int] == c;
    }
  }

  /** `Enum.HasFlag` on a single capability's value: every capability has itself, and the
      empty mask has exactly `GestureData`, whose value is 0. */
  lemma HasFlagOfValues(c: KaiCapabilities)
    ensures HasFlag(CapabilityValue(c), c)
    ensures HasFlag(0, c) <==> c == GestureData
  {
  }

  /** Because `GestureData` is 0, every mask, 0 included, "has" it. */
  lemma GestureFlagInEveryMask(mask: bv32)
    ensures HasFlag(mask, GestureData)
  {
  }

  /** `FingerPositionalData` is 3 = 1 | 2, so a mask that has it also has
      `LinearFlickData` and `FingerShortcutData`. */
  lemma FingerPositionalFlagImplies(mask: bv32)
    ensures HasFlag(mask, FingerPositionalData) ==> HasFlag(mask, LinearFlickData) && HasFlag(mask, FingerShortcutData)
  {
  }

  /** The members are not independent bits: asking for one capability alone turns on others. */
  lemma CapabilitiesAreNotFlags()
    ensures HasFlag(CapabilityValue(LinearFlickData), GestureData)
    ensures HasFlag(CapabilityValue(AccelerometerData), FingerShortcutData)
    ensures HasFlag(CapabilityValue(MagnetometerData), GestureData) && !HasFlag(CapabilityValue(MagnetometerData), PYRData)
    ensures HasFlag(CapabilityValue(LinearFlickData) | CapabilityValue(FingerShortcutData), FingerPositionalData)
  {
  }

  /** The sixteen gestures, each once, in declaration order. */
  lemma AllGesturesListed()
    ensures |AllGestures| == 16
    ensures forall g :: g in AllGestures
    ensures forall i, j :: 0 <= i < j < |AllGestures| ==> AllGestures[i] != AllGestures[j]
  {
    forall g ensures g in AllGestures {
      match g
      case SwipeUp => assert AllGestures[0] == g;
      case SwipeDown => assert AllGestures[1] == g;
      case SwipeLeft => assert AllGestures[2] == g;
      case SwipeRight => assert AllGestures[3] == g;
      case SideSwipeUp => assert AllGestures[4] == g;
      case SideSwipeDown => assert AllGestures[5] == g;
      case SideSwipeLeft => assert AllGestures[6] == g;
      case SideSwipeRight => assert AllGestures[7] == g;
      case Pinch2Begin => assert AllGestures[8] == g;
      case Pinch2End => assert AllGestures[9] == g;
      case GrabBegin => assert AllGestures[10] == g;
      case GrabEnd => assert AllGestures[11] == g;
      case Pinch3Begin => assert AllGestures[12] == g;
      case Pinch3End => assert AllGestures[13] == g;
      case DialBegin => assert AllGestures[14] == g;
      case DialEnd => assert AllGestures[15] == g;
    }
  }

  /** Two different gestures have names that differ even ignoring case: a case-insensitive
      lookup matches at most one of them. */
  lemma GestureNamesDistinctIgnoringCase(g1: Gesture, g2: Gesture)
    requires g1 != g2
    ensures !EqualsIgnoreCase(GestureName(g1), GestureName(g2))
  {
    var a, b := GestureName(g1), GestureName(g2);
    // Length, first letter, sixth letter and tenth (or last) letter tell all names apart.
    var k := if |a| > 9 then 9 else |a| - 1;
    assert |a| != |b| || LowerChar(a[0]) != LowerChar(b[0]) || LowerChar(a[5]) != LowerChar(b[5]) || LowerChar(a[k]) != LowerChar(b[k]);
    if |a| == |b| {
      if LowerChar(a[0]) != LowerChar(b[0]) {
        assert Lower(a)[0] != Lower(b)[0];
      } else if LowerChar(a[5]) != LowerChar(b[5]) {
        assert Lower(a)[5] != Lower(b)[5];
      } else {
        assert Lower(a)[k] != Lower(b)[k];
      }
    }
  }

  lemma {:induction false} FindGestureComplete(s: string, gs: seq<Gesture>, g: Gesture)
    requires g in gs && EqualsIgnoreCase(GestureName(g), s)
    ensures FindGesture(s, gs) == Some(g)
  {
    if gs[0] == g {
    } else if EqualsIgnoreCase(GestureName(gs[0]), s) {
      GestureNamesDistinctIgnoringCase(gs[0], g);
    } else {
      FindGestureComplete(s, gs[1..], g);
    }
  }

  /** Gesture parsing succeeds with `g` exactly when the string is `g`'s name up to case. */
  lemma ParseGestureIffName(s: string, g: Gesture)
    ensures ParseGesture(s) == Some(g) <==> EqualsIgnoreCase(GestureName(g), s)
  {
    if EqualsIgnoreCase(GestureName(g), s) {
      AllGesturesListed();
      FindGestureComplete(s, AllGestures, g);
    }
  }

  /** Every name parses back, whatever its case. */
  lemma ParseGestureName(g: Gesture)
    ensures ParseGesture(GestureName(g)) == Some(g)
    ensures ParseGesture(Lower(GestureName(g))) == Some(g)
  {
    ParseGestureIffName(GestureName(g), g);
    ParseGestureIffName(Lower(GestureName(g)), g);
    assert Lower(Lower(GestureName(g))) == Lower(GestureName(g));
  }

  /** `Hand` has the two members `Left` and `Right`; each name parses back to its member. */
  lemma HandNamesParse(h: Hand)
    ensures h == Left || h == Right
    ensures ParseHandOrLeft(Some(HandName(h))) == h
    ensures ParseHandOrLeft(None) == Left
  {
  }
}
