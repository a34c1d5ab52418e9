/** What `KaiSDK.Handle` and the operations beside it do, as functions from the SDK's state
    before a call to the state after it (Kai.BaseModule/KaiSDK.cs).

    An exception is a `Threw` step carrying the state reached when it was thrown: nothing
    written before it is undone. `Handle` swallows every exception, so it returns a plain state.

    Every event the SDK raises is appended to `log`. A `Delivered` entry records the `Kai`
    object whose event was invoked (`target`) and the sender passed to the subscribers. The
    subscribers themselves are the parameter `faulty`: the deliveries on which some subscriber
    throws. Such a delivery is logged and then aborts the call, like any other exception. */
module Dispatch {

  import opened Wrappers
  import opened Json
  import opened DataTypes
  import opened Payload
  import C = Constants

  /** A `Kai` object of the SDK, by role: the three alias objects, `AnyKai`, and the object
      in slot `kaiId` of the device table. */
  datatype KaiRef = DefaultKaiRef | DefaultLeftKaiRef | DefaultRightKaiRef | AnyKaiRef | SlotRef(kaiId: int)

  datatype Event =
    | ErrorRaised(errorCode: int, error: Option<string>, message: Option<string>)
    | UnknownDataRaised(envelope: Object)
    | Delivered(target: KaiRef, sender: KaiRef, reading: Reading)

  /** The two fields of a `Kai` the SDK writes. */
  datatype KaiInfo = KaiInfo(kaiId: int, hand: Hand)

  /** The device table (`connectedKais`) and the three alias objects' fields. */
  datatype Registry = Registry(
    slots: seq<Option<KaiInfo>>,
    defaultKai: KaiInfo,
    defaultLeftKai: KaiInfo,
    defaultRightKai: KaiInfo)

  const TableSize: nat := 8

  /** An outgoing object, as the sequence of fields it was built from. */
  type Message = seq<Field>

  datatype State = State(
    initialised: bool,
    authenticated: bool,
    foregroundProcess: Option<string>,
    moduleId: string,
    moduleSecret: string,
    unknownDataAttached: bool,  // whether the `UnknownData` delegate is non-null
    registry: Registry,
    log: seq<Event>,
    outbox: seq<Message>)

  datatype Step = Done(state: State) | Threw(state: State)

  /** A transport message: text that `JObject.Parse` rejects, or the JSON value it holds. */
  datatype RawMessage = Malformed | Parsed(json: Json)

  /** The state of a freshly loaded SDK: nothing initialised, an empty table, and alias
      objects with the default fields of `new Kai()`. */
  function InitialState(): State
  {
    State(false, false, None, "", "", false,
          Registry(EmptyTable(), KaiInfo(0, Left), KaiInfo(0, Left), KaiInfo(0, Left)),
          [], [])
  }

  function EmptyTable(): (t: seq<Option<KaiInfo>>)
    ensures |t| == TableSize && forall i :: 0 <= i < |t| ==> t[i] == None
  {
    seq(TableSize, _ => None)
  }

  // ---------------------------------------------------------------- raising events

  /** Raise one event: it is logged, then its subscribers may throw. */
  function Raise(s: State, e: Event, faulty: Event -> bool): Step
  {
    var s' := s.(log := s.log + [e]);
    if faulty(e) then Threw(s') else Done(s')
  }

  /** Raise the events of `es` in order, stopping at the first that throws. */
  function RaiseAll(s: State, es: seq<Event>, faulty: Event -> bool): Step
    decreases |es|
  {
    if es == [] then Done(s)
    else
      var first := Raise(s, es[0], faulty);
      if first.Threw? then first else RaiseAll(first.state, es[1..], faulty)
  }

  /** Where the readings of one `incomingData` envelope go: the source slot, whether that
      slot holds a `Kai`, and the envelope's three alias flags. */
  datatype Route = Route(kaiId: int, devicePresent: bool, defaultKai: bool, defaultLeftKai: bool, defaultRightKai: bool)

  /** The alias deliveries of one reading, each gated by its flag, in router order. */
  function AliasDeliveries(route: Route, r: Reading): seq<Event>
  {
    (if route.defaultKai then [Delivered(DefaultKaiRef, DefaultKaiRef, r)] else [])
    + (if route.defaultLeftKai then [Delivered(DefaultLeftKaiRef, DefaultLeftKaiRef, r)] else [])
    + (if route.defaultRightKai then [Delivered(DefaultRightKaiRef, DefaultRightKaiRef, r)] else [])
  }

  /** The source device's own delivery, then `AnyKai`'s, whose sender is the source device. */
  function DeviceDeliveries(route: Route, r: Reading): seq<Event>
  {
    [Delivered(SlotRef(route.kaiId), SlotRef(route.kaiId), r), Delivered(AnyKaiRef, SlotRef(route.kaiId), r)]
  }

  /** A `Fire*Event` router (the nine differ only in the event they raise). The device's
      event is reached through the slot's object, so an empty slot throws there, after the
      alias deliveries and before `AnyKai`. */
  function Fire(s: State, route: Route, r: Reading, faulty: Event -> bool): Step
  {
    var aliases := RaiseAll(s, AliasDeliveries(route, r), faulty);
    if aliases.Threw? then aliases
    else if !route.devicePresent then Threw(aliases.state)
    else RaiseAll(aliases.state, DeviceDeliveries(route, r), faulty)
  }

  // ---------------------------------------------------------------- incomingData

  /** One pass of the `foreach` over `data` (KaiSDK.cs:228-272). `envelope` is the whole
      incoming object, which is what the unknown-type branch hands to `UnknownData`; that call
      has no `?.`, so it throws when no handler is attached. */
  function Fragment(s: State, route: Route, envelope: Object, item: Json, faulty: Event -> bool): Step
  {
    if !item.JObject? then Done(s)  // not an object: skipped
    else
      var frag := item.fields;
      match ToStr(Get(frag, C.Type))
      case Failure => Threw(s)
      case Ok(tag) =>
        match KindOf(tag)
        case None =>
          if s.unknownDataAttached then Raise(s, UnknownDataRaised(envelope), faulty) else Threw(s)
        case Some(k) =>
          match Decode(k, frag)
          case Failure => Threw(s)
          case Ok(reading) => Fire(s, route, reading, faulty)
  }

  /** The whole `foreach`: fragments in order, the first exception ending the loop. */
  function Fragments(s: State, route: Route, envelope: Object, items: seq<Json>, faulty: Event -> bool): Step
    decreases |items|
  {
    if items == [] then Done(s)
    else
      var before := Fragments(s, route, envelope, items[..|items| - 1], faulty);
      if before.Threw? then before else Fragment(before.state, route, envelope, items[|items| - 1], faulty)
  }

  /** `DecodeIncomingData` (KaiSDK.cs:211-272): record the foreground process, look the
      source device up, read the three flags, then run the fragments. A `null` `data` ends
      the call quietly. */
  function IncomingData(s: State, input: Object, faulty: Event -> bool): Step
  {
    match ToStr(Get(input, C.ForegroundProcess))
    case Failure => Threw(s)
    case Ok(process) =>
      var s1 := s.(foregroundProcess := process);
      match ToInt(Get(input, C.KaiId))
      case Failure => Threw(s1)
      case Ok(kaiId) =>
        if !(0 <= kaiId < |s1.registry.slots|) then Threw(s1)  // IndexOutOfRangeException
        else
          var isDefault := ToBool(Get(input, C.DefaultKai));
          var isDefaultLeft := ToBool(Get(input, C.DefaultLeftKai));
          var isDefaultRight := ToBool(Get(input, C.DefaultRightKai));
          if isDefault.Failure? || isDefaultLeft.Failure? || isDefaultRight.Failure? then Threw(s1)
          else
            var route := Route(kaiId, s1.registry.slots[kaiId].Some?, isDefault.value, isDefaultLeft.value, isDefaultRight.value);
            match ToArray(Get(input, C.Data))
            case Failure => Threw(s1)
            case Ok(None) => Done(s1)
            case Ok(Some(items)) => Fragments(s1, route, input, items, faulty)
  }

  // ---------------------------------------------------------------- connectedKais

  /** The alias writes of one entry of the `kais` list: each flagged alias takes the entry's
      id, the default alias with the entry's hand, the left and right aliases with their own. */
  function MovedAliases(r: Registry, kaiId: int, hand: Hand, isDefault: bool, isDefaultLeft: bool, isDefaultRight: bool): Registry
  {
    r.(defaultKai := if isDefault then KaiInfo(kaiId, hand) else r.defaultKai,
       defaultLeftKai := if isDefaultLeft then KaiInfo(kaiId, Left) else r.defaultLeftKai,
       defaultRightKai := if isDefaultRight then KaiInfo(kaiId, Right) else r.defaultRightKai)
  }

  /** One pass of the `foreach` over `kais` (KaiSDK.cs:527-562). All three alias tests read
      the `defaultKai` field. The alias writes come before the table write, so an
      out-of-range `kaiId` throws after moving the aliases to it. */
  function Entry(s: State, token: Json): Step
  {
    match ToObj(Some(token))
    case Failure => Threw(s)
    case Ok(kai) =>
      var kaiId := ToInt(Get(kai, C.KaiId));
      var handName := ToStr(Get(kai, C.Hand));
      var isDefault := ToNullableBool(Get(kai, C.DefaultKai));
      var isDefaultLeft := ToNullableBool(Get(kai, C.DefaultKai));
      var isDefaultRight := ToNullableBool(Get(kai, C.DefaultKai));
      if kaiId.Failure? || handName.Failure? || isDefault.Failure? || isDefaultLeft.Failure? || isDefaultRight.Failure? then Threw(s)
      else
        var id := kaiId.value;
        var hand := ParseHandOrLeft(handName.value);
        var r3 := MovedAliases(s.registry, id, hand, isDefault.value == Some(true), isDefaultLeft.value == Some(true), isDefaultRight.value == Some(true));
        if !(0 <= id < |r3.slots|) then Threw(s.(registry := r3))  // IndexOutOfRangeException
        else Done(s.(registry := r3.(slots := r3.slots[id := Some(KaiInfo(id, hand))])))
  }

  function Entries(s: State, items: seq<Json>): Step
    decreases |items|
  {
    if items == [] then Done(s)
    else
      var before := Entries(s, items[..|items| - 1]);
      if before.Threw? then before else Entry(before.state, items[|items| - 1])
  }

  /** `DecodeConnectedKais` (KaiSDK.cs:523-563): the table is replaced by an empty one before
      the list is walked, so a `null` list leaves it empty and then throws. */
  function ConnectedKais(s: State, input: Object): Step
  {
    match ToArray(Get(input, C.Kais))
    case Failure => Threw(s)
    case Ok(list) =>
      var s1 := s.(registry := s.registry.(slots := EmptyTable()));
      match list
      case None => Threw(s1)  // foreach over null
      case Some(items) => Entries(s1, items)
  }

  // ---------------------------------------------------------------- Handle

  /** `DecodeAuthentication` (KaiSDK.cs:518-521). */
  function Authentication(s: State, input: Object): Step
  {
    match ToBool(Get(input, C.Authenticated))
    case Failure => Threw(s)
    case Ok(authenticated) => Done(s.(authenticated := authenticated))
  }

  /** `DecodeSDKError` (KaiSDK.cs:202-209). */
  function SdkError(s: State, input: Object, faulty: Event -> bool): Step
  {
    var code, error, message := ToInt(Get(input, C.ErrorCode)), ToStr(Get(input, C.Error)), ToStr(Get(input, C.Message));
    if code.Ok? && error.Ok? && message.Ok? then Raise(s, ErrorRaised(code.value, error.value, message.value), faulty)
    else Threw(s)
  }

  /** The body of `Handle`'s `try` once the text has parsed to an object. The `default`
      branch's `UnknownData?.Invoke` is logged like `Error?.Invoke`, as a raise site reached;
      whether a handler is attached matters only in the fragment loop, whose call has no `?.`. */
  function HandleObject(s: State, input: Object, faulty: Event -> bool): Step
  {
    match ToBool(Get(input, C.Success))
    case Failure => Threw(s)
    case Ok(success) =>
      if !success then SdkError(s, input, faulty)
      else
        match ToStr(Get(input, C.Type))
        case Failure => Threw(s)
        case Ok(t) =>
          if t == Some(C.Authentication) then Authentication(s, input)
          else if t == Some(C.IncomingData) then IncomingData(s, input, faulty)
          else if t == Some(C.ConnectedKais) then ConnectedKais(s, input)
          else Raise(s, UnknownDataRaised(input), faulty)
  }

  /** `Handle` (KaiSDK.cs:158-200): ignored before `Initialise`; every exception is swallowed,
      keeping whatever was written before it. */
  function Handle(s: State, raw: RawMessage, faulty: Event -> bool): State
  {
    if !s.initialised then s
    else
      match raw
      case Malformed => s
      case Parsed(j) => if j.JObject? then HandleObject(s, j.fields, faulty).state else s
  }

  // ---------------------------------------------------------------- outgoing

  /** `Initialise` (KaiSDK.cs:67-73). */
  function Initialise(s: State, moduleId: string, moduleSecret: string): State
  {
    s.(moduleId := moduleId, moduleSecret := moduleSecret, initialised := true)
  }

  /** The object `SendAuth` builds. */
  function AuthMessage(moduleId: string, moduleSecret: string): Message
  {
    [Field(C.Type, JString(C.Authentication)), Field(C.ModuleId, JString(moduleId)), Field(C.ModuleSecret, JString(moduleSecret))]
  }

  /** `Connect` (KaiSDK.cs:79-91): refused before `Initialise`, otherwise sends the
      authentication message. */
  function Connect(s: State): Step
  {
    if !s.initialised then Threw(s)
    else Done(s.(outbox := s.outbox + [AuthMessage(s.moduleId, s.moduleSecret)]))
  }

  /** The field a capability is announced under. */
  function CapabilityField(c: KaiCapabilities): string
  {
    match c
    case GestureData => C.GestureData
    case LinearFlickData => C.LinearFlickData
    case FingerShortcutData => C.FingerShortcutData
    case FingerPositionalData => C.FingerPositionalData
    case PYRData => C.PYRData
    case QuaternionData => C.QuaternionData
    case AccelerometerData => C.AccelerometerData
    case GyroscopeData => C.GyroscopeData
    case MagnetometerData => C.MagnetometerData
  }

  /** The field one `if (capabilities.HasFlag(...))` adds: `true` under the capability's name. */
  function Announcement(mask: bv32, c: KaiCapabilities): seq<Field>
  {
    if HasFlag(mask, c) then [Field(CapabilityField(c), JBool(true))] else []
  }

  /** The object `SetCapabilities` sends for a mask: its `type`, then one conditional field
      per capability, in declaration order. */
  function CapabilityMessage(mask: bv32): Message
  {
    [Field(C.Type, JString(C.SetCapabilities))]
    + Announcement(mask, GestureData) + Announcement(mask, LinearFlickData) + Announcement(mask, FingerShortcutData)
    + Announcement(mask, FingerPositionalData) + Announcement(mask, PYRData) + Announcement(mask, QuaternionData)
    + Announcement(mask, AccelerometerData) + Announcement(mask, GyroscopeData) + Announcement(mask, MagnetometerData)
  }

  /** `SetCapabilities` (KaiSDK.cs:98-136): refused unless authenticated. The `kai` argument
      of the C# method is not used by it. */
  function SetCapabilities(s: State, mask: bv32): Step
  {
    if !s.authenticated then Threw(s)
    else Done(s.(outbox := s.outbox + [CapabilityMessage(mask)]))
  }
}
