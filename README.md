# Kai SDK message dispatch, modelled in Dafny

The Kai .NET SDK (`KaiSDK`, a static class) receives JSON messages from the Kai SDK service and
turns them into events on `Kai` objects. This project models that engine:

- `Handle`: it is ignored before `Initialise`, swallows every exception, and dispatches on
  `success` and `type`.
- The `incomingData` decoder:
  - it runs one pass per fragment of the `data` array;
  - it has nine payload decoders;
  - its routers deliver each reading to the flagged aliases `DefaultKai`, `DefaultLeftKai` and
    `DefaultRightKai`, then to the source device, then to `AnyKai`.
- The `connectedKais` decoder: it rebuilds the eight-slot device table and moves the aliases.
- The outgoing side:
  - `Initialise`;
  - `Connect`, which sends the authentication object;
  - `SetCapabilities`, which builds one field per `KaiCapabilities` flag the mask has.
- The enums of `DataTypes.cs`: `KaiCapabilities` (values 0..8), `Gesture`, `Hand`, and the
  shapes `Vector3` and `Quaternion`.

Modules:

| file | module | contents |
|---|---|---|
| `Wrappers.dfy` | `Wrappers` | `Option` and `Result` |
| `Json.dfy` | `Json` | JSON values and the `ToObject<T>` conversions the SDK applies |
| `Constants.dfy` | `Constants` | field names and type tags |
| `DataTypes.dfy` | `DataTypes` | the enums, `HasFlag`, case-insensitive gesture and hand parsing |
| `Payload.dfy` | `Payload` | the nine `Parse*` decoders; the two finger decoders are loop methods proved against their functions |
| `Dispatch.dfy` | `Dispatch` | the SDK's state as a value and each operation as a function from state to state |
| `DispatchProperties.dfy` | `DispatchProperties` | what those functions promise |
| `KaiSdk.dfy` | `KaiSdk` | classes `Kai` and `Sdk`; the `Sdk` methods update fields, the `array<Kai?>` table and the alias objects in place |

How the pieces fit:

- Each `Sdk` method that has a `Dispatch` counterpart is proved to move `View()` exactly as that
  function does. `DecodeReading` is proved equal to `Payload.Decode`. `SetAlias` states the alias
  fields it writes and that the table is unchanged.
- An exception is a `Threw` step that carries the state reached when it was thrown. Nothing
  written before it is undone: `ForegroundProcess`, alias moves and earlier deliveries all stay.
- Every event the SDK invokes is appended to a log. This covers `Error`, `UnknownData`, and each
  `Kai` event with its target object and sender.
- Subscribers are the parameter `faulty`, the deliveries on which a subscriber throws.
- `Send` appends the outgoing object, as its list of fields, to an outbox.

## Model

| member | source | states |
|---|---|---|
| `DataTypes.CapabilityValuesInDeclarationOrder` | Kai.BaseModule/DataTypes.cs:6-18 | the nine capabilities carry the values 0..8 in declaration order, and the list names each once |
| `DataTypes.GestureFlagInEveryMask` | Kai.BaseModule/DataTypes.cs:9 | `GestureData` is 0, so every mask, 0 included, has that flag |
| `DataTypes.FingerPositionalFlagImplies` | Kai.BaseModule/DataTypes.cs:10-12 | a mask that has `FingerPositionalData` (3) also has `LinearFlickData` and `FingerShortcutData` |
| `DataTypes.CapabilitiesAreNotFlags` | Kai.BaseModule/DataTypes.cs:6-18 | the values are not independent bits: one capability's value "has" other capabilities |
| `DataTypes.HasFlagOfValues` | Kai.BaseModule/KaiSDK.cs:108-133 | `Enum.HasFlag` as `SetCapabilities` uses it: each capability's value has that capability, and the empty mask has exactly `GestureData` |
| `DataTypes.AllGesturesListed` | Kai.BaseModule/DataTypes.cs:20-38 | exactly sixteen gestures, each once, in declaration order |
| `DataTypes.GestureNamesDistinctIgnoringCase` | Kai.BaseModule/DataTypes.cs:20-38 | two different gestures have names that differ even ignoring case |
| `DataTypes.FindGesture` | Kai.BaseModule/KaiSDK.cs:278 | a gesture found by the case-insensitive lookup is in the list and its name matches the string |
| `DataTypes.FindGestureComplete` | Kai.BaseModule/KaiSDK.cs:278 | the lookup finds every listed gesture whose name matches |
| `DataTypes.ParseGestureIffName` | Kai.BaseModule/KaiSDK.cs:278 | gesture parsing yields `g` exactly when the string is `g`'s name up to case |
| `DataTypes.ParseGestureName` | Kai.BaseModule/DataTypes.cs:20-38 | every gesture name, as declared or in lower case, parses back to its gesture |
| `DataTypes.ParseHandOrLeft` | Kai.BaseModule/KaiSDK.cs:536-537 | the hand is `Right` exactly for "right" in any case; everything else, `null` included, becomes `Left` |
| `DataTypes.HandNamesParse` | Kai.BaseModule/DataTypes.cs:40-44 | `Hand` has the two members `Left` and `Right`, and each name parses back |
| `Json.ToInt` | Kai.BaseModule/KaiSDK.cs:214 | `ToObject<int>` succeeds exactly on an integer within 32 bits, and returns that integer |
| `Json.ToStr` | Kai.BaseModule/KaiSDK.cs:213 | `ToObject<string>` succeeds exactly on a string or JSON `null`; a string converts to itself and `null` to the `null` string |
| `Json.ToBool` | Kai.BaseModule/KaiSDK.cs:170 | `ToObject<bool>` succeeds exactly on a JSON boolean, and returns it |
| `Json.ToNullableBool` | Kai.BaseModule/KaiSDK.cs:532-534 | `?.ToObject<bool>()` gives `null` for an absent key, the value for a boolean, and fails otherwise |
| `Json.ToFloat` | Kai.BaseModule/KaiSDK.cs:307-310 | `ToObject<float>` succeeds exactly on a JSON number, and returns its value |
| `Json.ToArray` | Kai.BaseModule/KaiSDK.cs:220 | `ToObject<JArray>` succeeds exactly on an array or JSON `null`, returning the items or the `null` array |
| `Json.ToObj` | Kai.BaseModule/KaiSDK.cs:303 | `ToObject<JObject>` succeeds, for a use of the object, exactly on a JSON object, and returns its fields |
| `Payload.KindOf` | Kai.BaseModule/KaiSDK.cs:237-270 | a fragment kind is recognised only from its own tag |
| `Payload.KindOfIff` | Kai.BaseModule/KaiSDK.cs:237-270 | the fragment switch picks kind `k` exactly when the type is `k`'s tag |
| `Payload.DecodeGesture` | Kai.BaseModule/KaiSDK.cs:274-286 | the gesture decoder succeeds exactly when `gesture` is a string or `null`, and raises `Gesture` or `UnknownGesture` |
| `Payload.GestureDecoding` | Kai.BaseModule/KaiSDK.cs:274-286 | a gesture fragment gives `Gesture(g)` exactly when its string is `g`'s name up to case; a `null` or unmatched string goes to `UnknownGesture` unchanged |
| `Payload.UnknownGestureExample` | Kai.BaseModule/KaiSDK.cs:283-285 | "TripleTap" is passed on verbatim as an unknown gesture |
| `Payload.KnownGestureExample` | Kai.BaseModule/KaiSDK.cs:278-281 | "swipeUP" is recognised as `SwipeUp` |
| `Payload.DecodeLinearFlick` | Kai.BaseModule/KaiSDK.cs:325-330 | the flick decoder succeeds exactly when `flick` is a string or `null`, and passes that value on unchanged in a `LinearFlick` event |
| `Payload.DecodePYR` | Kai.BaseModule/KaiSDK.cs:316-323 | the PYR decoder succeeds exactly when `pitch`, `yaw` and `roll` are numbers, and raises `PYR` |
| `Payload.DecodeQuaternion` | Kai.BaseModule/KaiSDK.cs:301-314 | the quaternion decoder succeeds exactly when `quaternion` is an object whose w, x, y, z are numbers, and raises `Quaternion` |
| `Payload.DecodeVector3` | Kai.BaseModule/KaiSDK.cs:347-354 | a vector is read exactly when the key holds an object whose x, y, z are numbers |
| `Payload.DecodeAccelerometer` | Kai.BaseModule/KaiSDK.cs:345-357 | succeeds exactly on an `accelerometer` vector, and raises `Accelerometer` |
| `Payload.DecodeGyroscope` | Kai.BaseModule/KaiSDK.cs:359-371 | succeeds exactly on a `gyroscope` vector, and raises `Gyroscope` |
| `Payload.DecodeMagnetometer` | Kai.BaseModule/KaiSDK.cs:373-385 | succeeds exactly on a `magnetometer` vector, and raises `Magnetometer` |
| `Payload.DecodeFingerShortcut` | Kai.BaseModule/KaiSDK.cs:288-299 | succeeds exactly when `fingers` is an array of at most four booleans, so any non-boolean entry fails; the reading always has four fingers |
| `Payload.DecodeFingerPositional` | Kai.BaseModule/KaiSDK.cs:332-343 | succeeds exactly when `fingers` is an object of at most four entries whose entry `i` is a 32-bit integer; the reading always has four 32-bit positions |
| `Payload.Decode` | Kai.BaseModule/KaiSDK.cs:239-267 | each branch of the fragment switch raises its own kind's event, with four fingers or four 32-bit positions where the event carries them |
| `Payload.ParseFingerShortcut` | Kai.BaseModule/KaiSDK.cs:288-299 | the loop over a fresh `bool[4]` computes `DecodeFingerShortcut`: at most four booleans, missing ones `false` |
| `Payload.FingerShortcutRoundTrip` | Kai.BaseModule/KaiSDK.cs:288-299 | in any fragment, up to four booleans decode to themselves padded with `false` to four; a trailing `false` changes nothing; a fifth entry fails |
| `Payload.ParseFingerPositional` | Kai.BaseModule/KaiSDK.cs:332-343 | the loop over a fresh `int[4]` computes `DecodeFingerPositional`: an object of at most four 32-bit entries, missing ones 0 |
| `Payload.FingerPositionalRoundTrip` | Kai.BaseModule/KaiSDK.cs:332-343 | in any fragment, up to four 32-bit positions keyed "0" to "3" decode to themselves padded with 0 to four |
| `Payload.SensorRoundTrips` | Kai.BaseModule/KaiSDK.cs:300-385 | in any fragment, the vector decoders read back x, y, z; the quaternion decoder reads back w, x, y, z; PYR reads the angles from the fragment itself |
| `DispatchProperties.RaiseAllLogs` | Kai.BaseModule/KaiSDK.cs:387-398 | a list of invocations logs its events in order up to and including the first whose subscriber throws, and throws exactly when one does |
| `DispatchProperties.FireDeliveryOrder` | Kai.BaseModule/KaiSDK.cs:387-398 | a router delivers to the flagged aliases, then the device, then `AnyKai`; with an empty slot it throws after the alias deliveries |
| `DispatchProperties.FireWithoutFaults` | Kai.BaseModule/KaiSDK.cs:387-398 | with subscribers that do not throw, the log gains exactly the alias deliveries, then the device's and `AnyKai`'s, whose sender is the device |
| `DispatchProperties.FragmentsAppend` | Kai.BaseModule/KaiSDK.cs:228-272 | the batch `a + b` runs `a`, then `b` only if no fragment of `a` threw |
| `DispatchProperties.FragmentsStopAt` | Kai.BaseModule/KaiSDK.cs:228-272 | once fragment `i` throws, the fragments after it are not run |
| `DispatchProperties.NonObjectFragmentSkipped` | Kai.BaseModule/KaiSDK.cs:230-234 | an entry of `data` that is not an object is skipped wherever it stands |
| `DispatchProperties.UnknownFragment` | Kai.BaseModule/KaiSDK.cs:268-270 | an unknown or `null` fragment type hands the whole envelope to `UnknownData`, and throws when no handler is attached |
| `DispatchProperties.IncomingDataEffect` | Kai.BaseModule/KaiSDK.cs:211-226 | `incomingData` changes only the foreground process and the log; once the process name has been read it is kept, even if a later step throws |
| `DispatchProperties.SingleFragment` | Kai.BaseModule/KaiSDK.cs:228-267 | a `data` array of one decodable fragment fires exactly that fragment's reading |
| `DispatchProperties.IncomingDataFires` | Kai.BaseModule/KaiSDK.cs:211-228 | the envelope's `kaiId`, the slot's occupancy and the three alias flags form the route its fragment is fired on, after the foreground process, a string or `null`, is recorded |
| `DispatchProperties.IncomingDataDelivers` | Kai.BaseModule/KaiSDK.cs:158-398 | end to end: `Handle` on an `incomingData` envelope with one decodable fragment records the process, a string or `null`, and, with well-behaved subscribers, logs the flagged alias deliveries and then the device's and `AnyKai`'s; with an empty slot only the alias deliveries |
| `DispatchProperties.EntriesReference` | Kai.BaseModule/KaiSDK.cs:527-562 | the `kais` loop completes exactly when every entry is accepted, and then leaves the registry `Rebuilt` describes (last entry per slot wins; aliases follow the last entry flagged `defaultKai`) |
| `DispatchProperties.EntryByClaim` | Kai.BaseModule/KaiSDK.cs:529-561 | one entry gets through exactly when accepted, and then moves the aliases its `defaultKai` flags and fills its slot; an entry whose fields do not convert throws with nothing written, and an out-of-range id throws after the alias moves, which stay |
| `DispatchProperties.EntriesUpToRejected` | Kai.BaseModule/KaiSDK.cs:527-562 | the `kais` loop throws at its first rejected entry, keeping the entries before it as `Rebuilt` describes and that entry's own alias moves |
| `DispatchProperties.EntriesStopAt` | Kai.BaseModule/KaiSDK.cs:527-562 | once entry `i` throws, the entries after it are not run |
| `DispatchProperties.ConnectedKaisLastWins` | Kai.BaseModule/KaiSDK.cs:523-563 | the table is rebuilt from scratch: slot `i` holds the last entry with id `i` and other slots are empty; aliases move only when an entry claims them |
| `DispatchProperties.ConnectedKaisNullList` | Kai.BaseModule/KaiSDK.cs:525-527 | a `null` list empties the table, then throws |
| `DispatchProperties.LeftFlagIgnored` | Kai.BaseModule/KaiSDK.cs:532-534 | an entry that carries only `defaultLeftKai: true` fills its slot and leaves every alias unchanged |
| `DispatchProperties.HandleKeepsConfiguration` | Kai.BaseModule/KaiSDK.cs:158-200 | `Handle` keeps the initialised flag, module id and secret, the handler, the outbox and the table's size, and only appends to the log; before `Initialise` or on non-object text it changes nothing |
| `DispatchProperties.ErrorEnvelope` | Kai.BaseModule/KaiSDK.cs:170-174 | a `success: false` envelope only reports its error triple, whatever its `type`; if a field does not convert, nothing happens |
| `DispatchProperties.UnknownEnvelope` | Kai.BaseModule/KaiSDK.cs:177-192 | a successful envelope whose type is `null` or unknown is passed whole to `UnknownData` and changes nothing else |
| `DispatchProperties.AuthenticationEnvelope` | Kai.BaseModule/KaiSDK.cs:518-521 | an `authentication` envelope sets `Authenticated` to its boolean value |
| `DispatchProperties.CapabilityAnnounced` | Kai.BaseModule/KaiSDK.cs:98-136 | the request holds a capability's `true` field exactly when the mask has that capability; apart from `type`, every field is `true` and names a capability the mask has |
| `DispatchProperties.EveryRequestAnnouncesGestures` | Kai.BaseModule/KaiSDK.cs:108-109 | every capability request, even for mask 0, announces `gestureData` |
| `KaiSdk.Kai.constructor` | Kai.BaseModule/KaiSDK.cs:557-561 | a new `Kai` carries the given id and hand |
| `KaiSdk.Sdk.constructor` | Kai.BaseModule/KaiSDK.cs:10-63 | a new SDK allocates its own eight-slot table, empty, and four distinct alias objects, `AnyKai` included, with default fields |
| `KaiSdk.Sdk.Initialise` | Kai.BaseModule/KaiSDK.cs:67-73 | stores the module id and secret and marks the SDK initialised |
| `KaiSdk.Sdk.Connect` | Kai.BaseModule/KaiSDK.cs:79-91 | throws before `Initialise`; otherwise sends the authentication object |
| `KaiSdk.Sdk.SetCapabilities` | Kai.BaseModule/KaiSDK.cs:98-136 | throws unless authenticated; otherwise sends `Dispatch.CapabilityMessage` for the mask |
| `KaiSdk.Sdk.Raise` | Kai.BaseModule/KaiSDK.cs:191 | an event invocation is logged, then aborts the call when a subscriber throws, as `Dispatch.Raise` |
| `KaiSdk.Sdk.Handle` | Kai.BaseModule/KaiSDK.cs:158-200 | moves the state as `Dispatch.Handle` does, keeps the table valid and leaves `AnyKai` untouched |
| `KaiSdk.Sdk.DecodeSdkError` | Kai.BaseModule/KaiSDK.cs:202-209 | as `Dispatch.SdkError` |
| `KaiSdk.Sdk.DecodeIncomingData` | Kai.BaseModule/KaiSDK.cs:211-227 | as `Dispatch.IncomingData` |
| `KaiSdk.Sdk.DecodeFragments` | Kai.BaseModule/KaiSDK.cs:228-272 | the loop over `data` computes `Dispatch.Fragments`, stopping at the first exception |
| `KaiSdk.Sdk.DecodeFragment` | Kai.BaseModule/KaiSDK.cs:230-271 | as `Dispatch.Fragment` |
| `KaiSdk.Sdk.DecodeReading` | Kai.BaseModule/KaiSDK.cs:239-267 | the fragment switch yields a reading of its kind's own event, with four fingers or four 32-bit positions where the event carries them |
| `KaiSdk.Sdk.RaiseIf` | Kai.BaseModule/KaiSDK.cs:389-394 | one flag-gated alias invocation raises its event only when the flag is set |
| `KaiSdk.Sdk.RaiseAliases` | Kai.BaseModule/KaiSDK.cs:389-394 | the three flag-gated alias invocations raise `Dispatch.AliasDeliveries`, in order |
| `KaiSdk.Sdk.RaiseDevice` | Kai.BaseModule/KaiSDK.cs:396-397 | the device's invocation, then `AnyKai`'s with the device as sender |
| `KaiSdk.Sdk.Fire` | Kai.BaseModule/KaiSDK.cs:387-398 | as `Dispatch.Fire` |
| `KaiSdk.Sdk.DecodeAuthentication` | Kai.BaseModule/KaiSDK.cs:518-521 | as `Dispatch.Authentication` |
| `KaiSdk.Sdk.DecodeConnectedKais` | Kai.BaseModule/KaiSDK.cs:523-563 | once `kais` converts, replaces the table with a fresh `Kai?[8]` holding only fresh `Kai`s, and computes `Dispatch.ConnectedKais` over the alias objects and the new table |
| `KaiSdk.Sdk.DecodeKaiEntry` | Kai.BaseModule/KaiSDK.cs:529-561 | as `Dispatch.Entry`; a slot it changes gets a fresh `Kai` |
| `KaiSdk.Sdk.MoveAliases` | Kai.BaseModule/KaiSDK.cs:539-555 | writes the flagged alias objects in place, as `Dispatch.MovedAliases` |
| `KaiSdk.Sdk.SetAlias` | Kai.BaseModule/KaiSDK.cs:541-542 | an alias object takes the id and hand, and the table is unaffected |

## Left out

- Transport is not modelled: `SetupConnections`, `Send`, `SendAsync` and the socket side of `Connect` are I/O. `Send` is an append to `outbox`, and `Handle` receives text already classified as `Malformed` or parsed JSON.
- Newtonsoft conversions are strict. A token converts only when it has the matching JSON type, so numeric strings, `"true"` and number-to-bool coercions are not modelled.
- Case-insensitive matching folds ASCII letters only.
- `DataTypes.ParseGesture` and `DataTypes.ParseHandOrLeft` match the whole string. `Enum.TryParse` also trims surrounding white space and accepts numeric and comma-separated forms. So `" SwipeUp"` and `" right"` parse in the SDK (KaiSDK.cs:278, 536) but not in the model.
- Floating point: readings are kept as reals, with no rounding to `float`.
- `Payload.DecodeFingerPositional`: the source indexes the `fingers` object with an integer (KaiSDK.cs:339). The model reads entry `i` under the key `"i"`, for "0" to "3", and requires an object of at most four entries. Newtonsoft's own behaviour for an integer index on an object is not modelled.
- Subscriber lists are not modelled. The log records each event invocation the SDK reaches, whether or not anyone subscribed. A throwing subscriber is the parameter `faulty`, a function of the event: equal deliveries always get the same verdict, so a subscriber that throws only on its second call, or that keeps state between calls, cannot be expressed. The only handler whose presence is tracked is `UnknownData`, because the fragment loop calls it without `?.`. Re-entrant calls from subscribers into the SDK are not modelled.
- `KaiSdk.Sdk.DecodeConnectedKais`: a `Kai` object is identified by its id and hand. Subscribers that stay attached to a slot object replaced by a later `connectedKais` message are not modelled.
- The `kai` argument of `SetCapabilities` is not used by the source and is ignored.
- `Constants.cs` is not part of this model. The field names and type tags in `Constants.dfy` are assumed spellings.
- The test projects are not modelled: they call a three-argument `Initialise` that `KaiSDK.cs` does not define. The test-only class `ActionPerformedTest` is also not modelled.
- The other members of `Kai` (its event fields) are not modelled; `Kai.cs` is not part of this model.
