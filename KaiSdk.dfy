/** The static class `KaiSDK` (Kai.BaseModule/KaiSDK.cs) as an object whose methods update its
    fields in place. `View()` reads the fields as a `Dispatch.State`, and every method is proved
    to move that view exactly as the matching `Dispatch` function says. A method that returns
    `ok == false` stands for the C# method throwing. */
module KaiSdk {

  import opened Wrappers
  import opened Json
  import opened DataTypes
  import opened Payload
  import D = Dispatch
  import P = DispatchProperties
  import C = Constants

  /** A `Kai` handle; only the two fields the SDK writes are modelled. */
  class Kai {
    var kaiId: int
    var hand: Hand

    constructor (kaiId: int, hand: Hand)
      ensures this.kaiId == kaiId && this.hand == hand
    {
      this.kaiId := kaiId;
      this.hand := hand;
    }
  }

  ghost function Info(k: Kai?): Option<D.KaiInfo>
    reads k
  {
    if k == null then None else Some(D.KaiInfo(k.kaiId, k.hand))
  }

  class Sdk {
    var connectedKais: array<Kai?>
    var initialised: bool
    var authenticated: bool
    var foregroundProcess: Option<string>
    var moduleId: string
    var moduleSecret: string
    var unknownDataAttached: bool  // `UnknownData != null`
    const defaultKai: Kai
    const defaultLeftKai: Kai
    const defaultRightKai: Kai
    const anyKai: Kai
    var log: seq<D.Event>
    var outbox: seq<D.Message>

    ghost function Slots(): set<Kai?>
      reads this`connectedKais, connectedKais
    {
      set i | 0 <= i < connectedKais.Length :: connectedKais[i]
    }

    /** The table has eight slots, and the four alias objects (`AnyKai` included) are distinct
        from each other and from every object in the table. */
    ghost predicate Valid()
      reads this`connectedKais, connectedKais
    {
      && connectedKais.Length == D.TableSize
      && defaultKai != defaultLeftKai && defaultKai != defaultRightKai && defaultLeftKai != defaultRightKai
      && anyKai != defaultKai && anyKai != defaultLeftKai && anyKai != defaultRightKai
      && forall i :: 0 <= i < connectedKais.Length ==>
           && connectedKais[i] != defaultKai && connectedKais[i] != defaultLeftKai && connectedKais[i] != defaultRightKai
           && connectedKais[i] != anyKai
    }

    ghost function Table(): seq<Option<D.KaiInfo>>
      reads this`connectedKais, connectedKais, Slots()
    {
      var a := connectedKais;
      seq(a.Length, i requires 0 <= i < a.Length reads a, if 0 <= i < a.Length then {a[i]} else {} => Info(a[i]))
    }

    ghost function View(): D.State
      reads this, connectedKais, Slots(), defaultKai, defaultLeftKai, defaultRightKai
    {
      D.State(initialised, authenticated, foregroundProcess, moduleId, moduleSecret, unknownDataAttached,
              D.Registry(Table(),
                         D.KaiInfo(defaultKai.kaiId, defaultKai.hand),
                         D.KaiInfo(defaultLeftKai.kaiId, defaultLeftKai.hand),
                         D.KaiInfo(defaultRightKai.kaiId, defaultRightKai.hand)),
              log, outbox)
    }

    ghost function StepOf(ok: bool): D.Step
      reads this, connectedKais, Slots(), defaultKai, defaultLeftKai, defaultRightKai
    {
      if ok then D.Done(View()) else D.Threw(View())
    }

    constructor ()
      ensures Valid() && View() == D.InitialState()
      ensures anyKai.kaiId == 0 && anyKai.hand == Left
      ensures fresh(connectedKais) && fresh(defaultKai) && fresh(defaultLeftKai) && fresh(defaultRightKai) && fresh(anyKai)
    {
      connectedKais := new Kai?[D.TableSize](_ => null);
      defaultKai := new Kai(0, Left);
      defaultLeftKai := new Kai(0, Left);
      defaultRightKai := new Kai(0, Left);
      anyKai := new Kai(0, Left);
      initialised, authenticated, foregroundProcess := false, false, None;
      moduleId, moduleSecret, unknownDataAttached := "", "", false;
      log, outbox := [], [];
      new;
      assert Table() == D.EmptyTable();
    }

    method Initialise(moduleId: string, moduleSecret: string)
      modifies this`moduleId, this`moduleSecret, this`initialised
      ensures View() == D.Initialise(old(View()), moduleId, moduleSecret)
    {
      this.moduleId := moduleId;
      this.moduleSecret := moduleSecret;
      initialised := true;
    }

    /** `Connect` without the transport set-up: the authentication message goes to the outbox. */
    method Connect() returns (ok: bool)
      modifies this`outbox
      ensures StepOf(ok) == D.Connect(old(View()))
    {
      if !initialised {
        return false;
      }
      outbox := outbox + [[Field(C.Type, JString(C.Authentication)), Field(C.ModuleId, JString(moduleId)), Field(C.ModuleSecret, JString(moduleSecret))]];
      ok := true;
    }

    /** `SetCapabilities`: the object is built by one conditional `Add` per capability, in
        declaration order, then sent. */
    method SetCapabilities(kai: Kai, capabilities: bv32) returns (ok: bool)
      modifies this`outbox
      ensures StepOf(ok) == D.SetCapabilities(old(View()), capabilities)
    {
      if !authenticated {
        return false;
      }
      var json := [Field(C.Type, JString(C.SetCapabilities))];
      json := json + D.Announcement(capabilities, GestureData);
      json := json + D.Announcement(capabilities, LinearFlickData);
      json := json + D.Announcement(capabilities, FingerShortcutData);
      json := json + D.Announcement(capabilities, FingerPositionalData);
      json := json + D.Announcement(capabilities, PYRData);
      json := json + D.Announcement(capabilities, QuaternionData);
      json := json + D.Announcement(capabilities, AccelerometerData);
      json := json + D.Announcement(capabilities, GyroscopeData);
      json := json + D.Announcement(capabilities, MagnetometerData);
      outbox := outbox + [json];
      ok := true;
    }

    /** Invoke one event: log it; its subscribers may throw. */
    method Raise(e: D.Event, faulty: D.Event -> bool) returns (ok: bool)
      modifies this`log
      ensures StepOf(ok) == D.Raise(old(View()), e, faulty)
    {
      log := log + [e];
      ok := !faulty(e);
    }

    method Handle(data: D.RawMessage, faulty: D.Event -> bool)
      requires Valid()
      modifies this, defaultKai, defaultLeftKai, defaultRightKai
      ensures Valid()
      ensures View() == D.Handle(old(View()), data, faulty)
      ensures unchanged(anyKai)
    {
      if !initialised {
        return;
      }
      if data.Malformed? || !data.json.JObject? {
        return;  // JObject.Parse throws
      }
      var input := data.json.fields;
      var success := ToBool(Get(input, C.Success));
      if success.Failure? {
        return;
      }
      if !success.value {
        var _ := DecodeSdkError(input, faulty);
        return;
      }
      var t := ToStr(Get(input, C.Type));
      if t.Failure? {
        return;
      }
      if t.value == Some(C.Authentication) {
        var _ := DecodeAuthentication(input);
      } else if t.value == Some(C.IncomingData) {
        var _ := DecodeIncomingData(input, faulty);
      } else if t.value == Some(C.ConnectedKais) {
        var _ := DecodeConnectedKais(input);
      } else {
        var _ := Raise(D.UnknownDataRaised(input), faulty);
      }
    }

    method DecodeSdkError(input: Object, faulty: D.Event -> bool) returns (ok: bool)
      modifies this`log
      ensures StepOf(ok) == D.SdkError(old(View()), input, faulty)
    {
      var errorCode := ToInt(Get(input, C.ErrorCode));
      var error := ToStr(Get(input, C.Error));
      var message := ToStr(Get(input, C.Message));
      if errorCode.Failure? || error.Failure? || message.Failure? {
        return false;
      }
      ok := Raise(D.ErrorRaised(errorCode.value, error.value, message.value), faulty);
    }

    method DecodeAuthentication(input: Object) returns (ok: bool)
      modifies this`authenticated
      ensures StepOf(ok) == D.Authentication(old(View()), input)
    {
      var value := ToBool(Get(input, C.Authenticated));
      if value.Failure? {
        return false;
      }
      authenticated := value.value;
      ok := true;
    }

    /** `if (flag) Alias.<event>?.Invoke(...)`: raise `e` only when the envelope flags its alias. */
    method RaiseIf(flag: bool, e: D.Event, faulty: D.Event -> bool) returns (ok: bool)
      modifies this`log
      ensures StepOf(ok) == D.RaiseAll(old(View()), if flag then [e] else [], faulty)
    {
      ok := true;
      if flag {
        ok := Raise(e, faulty);
      }
    }

    /** The first half of a router: the three flagged alias invocations, in order. */
    method RaiseAliases(route: D.Route, r: Reading, faulty: D.Event -> bool) returns (ok: bool)
      modifies this`log
      ensures StepOf(ok) == D.RaiseAll(old(View()), D.AliasDeliveries(route, r), faulty)
    {
      ghost var s0 := View();
      var toDefault := D.Delivered(D.DefaultKaiRef, D.DefaultKaiRef, r);
      var toDefaultLeft := D.Delivered(D.DefaultLeftKaiRef, D.DefaultLeftKaiRef, r);
      var toDefaultRight := D.Delivered(D.DefaultRightKaiRef, D.DefaultRightKaiRef, r);
      ghost var a1 := if route.defaultKai then [toDefault] else [];
      ghost var a2 := if route.defaultLeftKai then [toDefaultLeft] else [];
      ghost var a3 := if route.defaultRightKai then [toDefaultRight] else [];
      assert D.AliasDeliveries(route, r) == a1 + a2 + a3;
      P.RaiseAllAppend(s0, a1 + a2, a3, faulty);
      P.RaiseAllAppend(s0, a1, a2, faulty);
      ok := RaiseIf(route.defaultKai, toDefault, faulty);
      if !ok {
        return;
      }
      ok := RaiseIf(route.defaultLeftKai, toDefaultLeft, faulty);
      if !ok {
        return;
      }
      ok := RaiseIf(route.defaultRightKai, toDefaultRight, faulty);
    }

    /** The second half of a router: the source device's invocation, then `AnyKai`'s with the
        source device as sender. */
    method RaiseDevice(route: D.Route, r: Reading, faulty: D.Event -> bool) returns (ok: bool)
      modifies this`log
      ensures StepOf(ok) == D.RaiseAll(old(View()), D.DeviceDeliveries(route, r), faulty)
    {
      ghost var s1 := View();
      var toDevice := D.Delivered(D.SlotRef(route.kaiId), D.SlotRef(route.kaiId), r);
      var toAnyKai := D.Delivered(D.AnyKaiRef, D.SlotRef(route.kaiId), r);
      P.RaiseAllAppend(s1, [toDevice], [toAnyKai], faulty);
      assert [toDevice] + [toAnyKai] == D.DeviceDeliveries(route, r);
      ok := Raise(toDevice, faulty);
      if !ok {
        return;
      }
      ok := Raise(toAnyKai, faulty);
    }

    /** A `Fire*Event` router. */
    method Fire(route: D.Route, r: Reading, faulty: D.Event -> bool) returns (ok: bool)
      modifies this`log
      ensures StepOf(ok) == D.Fire(old(View()), route, r, faulty)
    {
      ok := RaiseAliases(route, r, faulty);
      if !ok {
        return;
      }
      if !route.devicePresent {
        return false;  // NullReferenceException on `kai.<event>`
      }
      ok := RaiseDevice(route, r, faulty);
    }

    /** The `switch` on a fragment's kind, calling the matching `Parse*` function. */
    static method DecodeReading(kind: Kind, dataObject: Object) returns (reading: Result<Reading>)
      ensures reading == Decode(kind, dataObject)
      ensures reading.Ok? ==> ReadingKind(reading.value) == kind && WellFormed(reading.value)
    {
      match kind {
        case GestureKind => reading := DecodeGesture(dataObject);
        case FingerShortcutKind => reading := ParseFingerShortcut(dataObject);
        case PYRKind => reading := DecodePYR(dataObject);
        case QuaternionKind => reading := DecodeQuaternion(dataObject);
        case LinearFlickKind => reading := DecodeLinearFlick(dataObject);
        case FingerPositionalKind => reading := ParseFingerPositional(dataObject);
        case AccelerometerKind => reading := DecodeAccelerometer(dataObject);
        case GyroscopeKind => reading := DecodeGyroscope(dataObject);
        case MagnetometerKind => reading := DecodeMagnetometer(dataObject);
      }
    }

    /** The body of the `foreach` over `data`. */
    method DecodeFragment(route: D.Route, envelope: Object, data: Json, faulty: D.Event -> bool) returns (ok: bool)
      modifies this`log
      ensures StepOf(ok) == D.Fragment(old(View()), route, envelope, data, faulty)
    {
      if !data.JObject? {
        return true;
      }
      var dataObject := data.fields;
      var t := ToStr(Get(dataObject, C.Type));
      if t.Failure? {
        return false;
      }
      var kind := KindOf(t.value);
      if kind.None? {
        if !unknownDataAttached {
          return false;  // `UnknownData.Invoke` on null
        }
        ok := Raise(D.UnknownDataRaised(envelope), faulty);
        return;
      }
      ghost var s0 := View();
      var reading := DecodeReading(kind.value, dataObject);
      assert View() == s0;
      if reading.Failure? {
        return false;
      }
      ok := Fire(route, reading.value, faulty);
      assert StepOf(ok) == D.Fire(s0, route, reading.value, faulty);
    }

    method DecodeIncomingData(input: Object, faulty: D.Event -> bool) returns (ok: bool)
      modifies this`foregroundProcess, this`log
      ensures StepOf(ok) == D.IncomingData(old(View()), input, faulty)
    {
      var process := ToStr(Get(input, C.ForegroundProcess));
      if process.Failure? {
        return false;
      }
      foregroundProcess := process.value;
      assert View() == old(View()).(foregroundProcess := process.value);
      var kaiId := ToInt(Get(input, C.KaiId));
      if kaiId.Failure? || !(0 <= kaiId.value < connectedKais.Length) {
        return false;
      }
      var kai := connectedKais[kaiId.value];
      var defaultKaiFlag := ToBool(Get(input, C.DefaultKai));
      var defaultLeftKaiFlag := ToBool(Get(input, C.DefaultLeftKai));
      var defaultRightKaiFlag := ToBool(Get(input, C.DefaultRightKai));
      if defaultKaiFlag.Failure? || defaultLeftKaiFlag.Failure? || defaultRightKaiFlag.Failure? {
        return false;
      }
      var dataList := ToArray(Get(input, C.Data));
      if dataList.Failure? {
        return false;
      }
      if dataList.value.None? {
        return true;
      }
      var route := D.Route(kaiId.value, kai != null, defaultKaiFlag.value, defaultLeftKaiFlag.value, defaultRightKaiFlag.value);
      ok := DecodeFragments(route, input, dataList.value.value, faulty);
    }

    /** The `foreach` over `data`; the first exception ends it. */
    method DecodeFragments(route: D.Route, envelope: Object, items: seq<Json>, faulty: D.Event -> bool) returns (ok: bool)
      modifies this`log
      ensures StepOf(ok) == D.Fragments(old(View()), route, envelope, items, faulty)
    {
      ghost var s0 := View();
      for i := 0 to |items|
        invariant D.Done(View()) == D.Fragments(s0, route, envelope, items[..i], faulty)
      {
        P.FragmentsStep(s0, route, envelope, items, i, faulty);
        ok := DecodeFragment(route, envelope, items[i], faulty);
        if !ok {
          P.FragmentsStopAt(s0, route, envelope, items, i, faulty);
          return;
        }
      }
      assert items[..|items|] == items;
      ok := true;
    }

    /** One alias object takes an entry's id and a hand; the table's objects are others. */
    method SetAlias(k: Kai, kaiId: int, hand: Hand)
      requires Valid() && (k == defaultKai || k == defaultLeftKai || k == defaultRightKai)
      modifies k
      ensures Valid() && Table() == old(Table())
      ensures k.kaiId == kaiId && k.hand == hand
    {
      k.kaiId := kaiId;
      k.hand := hand;
      forall i | 0 <= i < connectedKais.Length
        ensures Info(connectedKais[i]) == old(Info(connectedKais[i]))
      {
      }
    }

    /** The alias writes of one `kais` entry, in place on the three alias objects. */
    method MoveAliases(kaiId: int, hand: Hand, isDefault: bool, isDefaultLeft: bool, isDefaultRight: bool)
      requires Valid()
      modifies defaultKai, defaultLeftKai, defaultRightKai
      ensures Valid()
      ensures View() == old(View()).(registry := D.MovedAliases(old(View()).registry, kaiId, hand, isDefault, isDefaultLeft, isDefaultRight))
    {
      if isDefault {
        SetAlias(defaultKai, kaiId, hand);
      }
      if isDefaultLeft {
        SetAlias(defaultLeftKai, kaiId, Left);
      }
      if isDefaultRight {
        SetAlias(defaultRightKai, kaiId, Right);
      }
    }

    /** The body of the `foreach` over `kais`. */
    method DecodeKaiEntry(token: Json) returns (ok: bool)
      requires Valid()
      modifies connectedKais, defaultKai, defaultLeftKai, defaultRightKai
      ensures Valid()
      ensures StepOf(ok) == D.Entry(old(View()), token)
      ensures forall i :: 0 <= i < connectedKais.Length ==> connectedKais[i] == old(connectedKais[i]) || fresh(connectedKais[i])
    {
      if !token.JObject? {
        return false;
      }
      var kai := token.fields;
      var kaiID := ToInt(Get(kai, C.KaiId));
      var hand := ToStr(Get(kai, C.Hand));
      var isDefault := ToNullableBool(Get(kai, C.DefaultKai));
      var isDefaultLeft := ToNullableBool(Get(kai, C.DefaultKai));
      var isDefaultRight := ToNullableBool(Get(kai, C.DefaultKai));
      if kaiID.Failure? || hand.Failure? || isDefault.Failure? || isDefaultLeft.Failure? || isDefaultRight.Failure? {
        return false;
      }
      var handEnum := ParseHandOrLeft(hand.value);
      MoveAliases(kaiID.value, handEnum, isDefault.value == Some(true), isDefaultLeft.value == Some(true), isDefaultRight.value == Some(true));
      if !(0 <= kaiID.value < connectedKais.Length) {
        return false;  // IndexOutOfRangeException
      }
      var entry := new Kai(kaiID.value, handEnum);
      connectedKais[kaiID.value] := entry;
      ok := true;
    }

    method DecodeConnectedKais(input: Object) returns (ok: bool)
      requires Valid()
      modifies this`connectedKais, defaultKai, defaultLeftKai, defaultRightKai
      ensures Valid()
      ensures StepOf(ok) == D.ConnectedKais(old(View()), input)
      ensures ToArray(Get(input, C.Kais)).Failure? ==> connectedKais == old(connectedKais)
      ensures ToArray(Get(input, C.Kais)).Ok? ==>
                fresh(connectedKais) && forall i :: 0 <= i < connectedKais.Length ==> connectedKais[i] == null || fresh(connectedKais[i])
    {
      var kaiList := ToArray(Get(input, C.Kais));
      if kaiList.Failure? {
        return false;
      }
      connectedKais := new Kai?[D.TableSize](_ => null);
      assert Table() == D.EmptyTable();
      if kaiList.value.None? {
        return false;  // foreach over null
      }
      var items := kaiList.value.value;
      ghost var s1 := View();
      for i := 0 to |items|
        invariant Valid() && fresh(connectedKais)
        invariant forall j :: 0 <= j < connectedKais.Length ==> connectedKais[j] == null || fresh(connectedKais[j])
        invariant D.Done(View()) == D.Entries(s1, items[..i])
      {
        P.EntriesStep(s1, items, i);
        ok := DecodeKaiEntry(items[i]);
        if !ok {
          P.EntriesStopAt(s1, items, i);
          return;
        }
      }
      assert items[..|items|] == items;
      ok := true;
    }
  }
}
