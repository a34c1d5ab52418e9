/** What the dispatch functions promise: the order and extent of event delivery, where an
    exception stops a batch, what each kind of message may change, how the device table is
    rebuilt from a `connectedKais` list, and what a capability request announces. */
module DispatchProperties {

  import opened Wrappers
  import opened Json
  import opened DataTypes
  import opened Payload
  import opened Dispatch
  import C = Constants

  // ---------------------------------------------------------------- raising events

  /** The index of the first event of `es` on which a subscriber throws, or `|es|`. */
  function FirstFault(es: seq<Event>, faulty: Event -> bool): (k: nat)
    ensures k <= |es|
    ensures forall i :: 0 <= i < k ==> !faulty(es[i])
    ensures k < |es| ==> faulty(es[k])
  {
    if es == [] || faulty(es[0]) then 0 else 1 + FirstFault(es[1..], faulty)
  }

  /** Raising a list of events logs them in order up to and including the first one that
      throws, and throws exactly when there is one. Nothing but the log changes. */
  lemma {:induction false} RaiseAllLogs(s: State, es: seq<Event>, faulty: Event -> bool)
    ensures var k := FirstFault(es, faulty);
            RaiseAll(s, es, faulty)
            == if k == |es| then Done(s.(log := s.log + es)) else Threw(s.(log := s.log + es[..k + 1]))
    decreases |es|
  {
    if es != [] && !faulty(es[0]) {
      var s1 := s.(log := s.log + [es[0]]);
      var k := FirstFault(es[1..], faulty);
      RaiseAllLogs(s1, es[1..], faulty);
      assert s1.log + es[1..] == s.log + es;
      if k < |es[1..]| {
        assert s1.log + es[1..][..k + 1] == s.log + es[..k + 2];
      }
    } else if es != [] {
      assert es[..1] == [es[0]];
    }
  }

  /** Raising `a + b` is raising `a`, then `b` unless `a` threw. */
  lemma {:induction false} RaiseAllAppend(s: State, a: seq<Event>, b: seq<Event>, faulty: Event -> bool)
    ensures RaiseAll(s, a + b, faulty)
            == var st := RaiseAll(s, a, faulty); if st.Threw? then st else RaiseAll(st.state, b, faulty)
    decreases |a|
  {
    if a == [] {
      assert a + b == b;
    } else {
      assert (a + b)[0] == a[0];
      assert (a + b)[1..] == a[1..] + b;
      var first := Raise(s, a[0], faulty);
      if first.Done? {
        RaiseAllAppend(first.state, a[1..], b, faulty);
      }
    }
  }

  /** The router delivers to the flagged aliases, then to the source device and to `AnyKai`
      (with the source device as sender); when the slot is empty it throws after the alias
      deliveries, so `AnyKai` receives nothing. Any subscriber that throws ends the list
      after its own delivery. */
  lemma FireDeliveryOrder(s: State, route: Route, r: Reading, faulty: Event -> bool)
    ensures route.devicePresent ==>
              Fire(s, route, r, faulty) == RaiseAll(s, AliasDeliveries(route, r) + DeviceDeliveries(route, r), faulty)
    ensures !route.devicePresent ==>
              Fire(s, route, r, faulty) == Threw(RaiseAll(s, AliasDeliveries(route, r), faulty).state)
  {
    if route.devicePresent {
      RaiseAllAppend(s, AliasDeliveries(route, r), DeviceDeliveries(route, r), faulty);
    }
  }

  /** With well-behaved subscribers and the device present, one reading produces exactly the
      alias deliveries followed by the device's and `AnyKai`'s. */
  lemma FireWithoutFaults(s: State, route: Route, r: Reading, faulty: Event -> bool)
    requires forall e :: !faulty(e)
    ensures route.devicePresent ==>
              Fire(s, route, r, faulty) == Done(s.(log := s.log + AliasDeliveries(route, r) + DeviceDeliveries(route, r)))
    ensures !route.devicePresent ==>
              Fire(s, route, r, faulty) == Threw(s.(log := s.log + AliasDeliveries(route, r)))
  {
    var es := AliasDeliveries(route, r) + DeviceDeliveries(route, r);
    FireDeliveryOrder(s, route, r, faulty);
    RaiseAllLogs(s, AliasDeliveries(route, r), faulty);
    RaiseAllLogs(s, es, faulty);
    assert s.log + es == s.log + AliasDeliveries(route, r) + DeviceDeliveries(route, r);
  }

  // ---------------------------------------------------------------- incomingData

  /** `t` differs from `s` at most by events appended to the log. */
  predicate LogGrows(s: State, t: State)
  {
    t == s.(log := t.log) && s.log <= t.log
  }

  lemma RaiseAllLogGrows(s: State, es: seq<Event>, faulty: Event -> bool)
    ensures LogGrows(s, RaiseAll(s, es, faulty).state)
  {
    RaiseAllLogs(s, es, faulty);
    var k := FirstFault(es, faulty);
    if k < |es| {
      assert s.log + es[..k + 1] == (s.log + es)[..|s.log| + k + 1];
    }
  }

  lemma FragmentLogGrows(s: State, route: Route, envelope: Object, item: Json, faulty: Event -> bool)
    ensures LogGrows(s, Fragment(s, route, envelope, item, faulty).state)
  {
    forall r: Reading ensures LogGrows(s, Fire(s, route, r, faulty).state) {
      var aliases := RaiseAll(s, AliasDeliveries(route, r), faulty);
      RaiseAllLogGrows(s, AliasDeliveries(route, r), faulty);
      RaiseAllLogGrows(aliases.state, DeviceDeliveries(route, r), faulty);
    }
  }

  /** The fragments of `a + b` are those of `a`, then those of `b` unless one of `a`
      threw: a failing fragment ends the batch. */
  lemma {:induction false} FragmentsAppend(s: State, route: Route, envelope: Object, a: seq<Json>, b: seq<Json>, faulty: Event -> bool)
    ensures Fragments(s, route, envelope, a + b, faulty)
            == var st := Fragments(s, route, envelope, a, faulty);
               if st.Threw? then st else Fragments(st.state, route, envelope, b, faulty)
  {
    if b == [] {
      assert a + b == a;
    } else {
      var b' := b[..|b| - 1];
      assert (a + b)[..|a + b| - 1] == a + b';
      assert (a + b)[|a + b| - 1] == b[|b| - 1];
      FragmentsAppend(s, route, envelope, a, b', faulty);
    }
  }

  lemma {:induction false} FragmentsLogGrows(s: State, route: Route, envelope: Object, items: seq<Json>, faulty: Event -> bool)
    ensures LogGrows(s, Fragments(s, route, envelope, items, faulty).state)
  {
    if items != [] {
      var before := Fragments(s, route, envelope, items[..|items| - 1], faulty);
      FragmentsLogGrows(s, route, envelope, items[..|items| - 1], faulty);
      FragmentLogGrows(before.state, route, envelope, items[|items| - 1], faulty);
    }
  }

  /** An item of the `data` array that is not an object is skipped wherever it stands. */
  lemma NonObjectFragmentSkipped(s: State, route: Route, envelope: Object, a: seq<Json>, item: Json, b: seq<Json>, faulty: Event -> bool)
    requires !item.JObject?
    ensures Fragments(s, route, envelope, a + [item] + b, faulty) == Fragments(s, route, envelope, a + b, faulty)
  {
    FragmentsAppend(s, route, envelope, a + [item], b, faulty);
    FragmentsAppend(s, route, envelope, a, b, faulty);
    assert (a + [item])[..|a + [item]| - 1] == a;
  }

  /** A fragment whose `type` is a string (or `null`) naming none of the nine kinds is
      reported through `UnknownData` with the whole envelope; with no handler attached it
      throws instead, which ends the batch. */
  lemma UnknownFragment(s: State, route: Route, envelope: Object, frag: Object, tag: Option<string>, faulty: Event -> bool)
    requires Get(frag, C.Type) == Some(if tag.Some? then JString(tag.value) else JNull)
    requires forall k :: tag != Some(KindTag(k))
    ensures s.unknownDataAttached ==>
              Fragment(s, route, envelope, JObject(frag), faulty) == Raise(s, UnknownDataRaised(envelope), faulty)
    ensures !s.unknownDataAttached ==> Fragment(s, route, envelope, JObject(frag), faulty) == Threw(s)
  {
  }

  /** The loop one fragment further: the fold over `items[..i + 1]` extends the fold over
      `items[..i]` by fragment `i`, unless an earlier one threw. */
  lemma FragmentsStep(s: State, route: Route, envelope: Object, items: seq<Json>, i: int, faulty: Event -> bool)
    requires 0 <= i < |items|
    ensures Fragments(s, route, envelope, items[..i + 1], faulty)
            == var before := Fragments(s, route, envelope, items[..i], faulty);
               if before.Threw? then before else Fragment(before.state, route, envelope, items[i], faulty)
  {
    assert items[..i + 1][..i] == items[..i];
  }

  /** A fragment that throws ends the loop: the fragments after it are not run. */
  lemma FragmentsStopAt(s: State, route: Route, envelope: Object, items: seq<Json>, i: int, faulty: Event -> bool)
    requires 0 <= i < |items| && Fragments(s, route, envelope, items[..i + 1], faulty).Threw?
    ensures Fragments(s, route, envelope, items, faulty) == Fragments(s, route, envelope, items[..i + 1], faulty)
  {
    FragmentsAppend(s, route, envelope, items[..i + 1], items[i + 1..], faulty);
    assert items[..i + 1] + items[i + 1..] == items;
  }

  /** `incomingData` may change the foreground process and append to the log, nothing else;
      once the process name has been read it is kept, even when a later step throws. */
  lemma IncomingDataEffect(s: State, input: Object, faulty: Event -> bool)
    ensures var process := ToStr(Get(input, C.ForegroundProcess));
            process.Failure? ==> IncomingData(s, input, faulty) == Threw(s)
    ensures var process := ToStr(Get(input, C.ForegroundProcess));
            process.Ok? ==> LogGrows(s.(foregroundProcess := process.value), IncomingData(s, input, faulty).state)
  {
    var process := ToStr(Get(input, C.ForegroundProcess));
    if process.Ok? {
      var s1 := s.(foregroundProcess := process.value);
      forall route: Route, items: seq<Json> ensures LogGrows(s1, Fragments(s1, route, input, items, faulty).state) {
        FragmentsLogGrows(s1, route, input, items, faulty);
      }
    }
  }

  // ---------------------------------------------------------------- connectedKais

  /** What one entry of the `kais` list says when all the fields the loop reads convert. */
  datatype Claim = Claim(kaiId: int, hand: Hand, isDefault: bool)

  function ClaimOf(token: Json): (c: Option<Claim>)
    ensures c.Some? ==> token.JObject? && Get(token.fields, C.KaiId) == Some(JInt(c.value.kaiId))
  {
    match token
    case JObject(kai) =>
      var kaiId, handName, isDefault := ToInt(Get(kai, C.KaiId)), ToStr(Get(kai, C.Hand)), ToNullableBool(Get(kai, C.DefaultKai));
      if kaiId.Ok? && handName.Ok? && isDefault.Ok? then
        Some(Claim(kaiId.value, ParseHandOrLeft(handName.value), isDefault.value == Some(true)))
      else None
    case _ => None
  }

  /** An entry the loop gets through: its fields convert and its id indexes the table. */
  predicate Accepted(token: Json)
  {
    ClaimOf(token).Some? && 0 <= ClaimOf(token).value.kaiId < TableSize
  }

  /** The device the list leaves in slot `i`: the last entry whose id is `i`. */
  function LastInSlot(items: seq<Json>, i: int): (k: Option<KaiInfo>)
    ensures k.Some? ==> k.value.kaiId == i
  {
    if items == [] then None
    else
      var c := ClaimOf(items[|items| - 1]);
      if c.Some? && c.value.kaiId == i then Some(KaiInfo(i, c.value.hand))
      else LastInSlot(items[..|items| - 1], i)
  }

  /** The last entry whose `defaultKai` field is `true`. */
  function LastDefault(items: seq<Json>): (c: Option<Claim>)
    ensures c.Some? ==> c.value.isDefault
  {
    if items == [] then None
    else
      var c := ClaimOf(items[|items| - 1]);
      if c.Some? && c.value.isDefault then c else LastDefault(items[..|items| - 1])
  }

  /** The registry that walking `items` leaves, starting from `r`: each slot holds the last
      entry with its id, or what it held before; each alias moves to the last entry flagged
      `defaultKai` (the left and right aliases with their own hand), or stays. */
  function Rebuilt(r: Registry, items: seq<Json>): Registry
  {
    var d := LastDefault(items);
    Registry(
      seq(|r.slots|, i requires 0 <= i < |r.slots| => if LastInSlot(items, i).Some? then LastInSlot(items, i) else r.slots[i]),
      if d.Some? then KaiInfo(d.value.kaiId, d.value.hand) else r.defaultKai,
      if d.Some? then KaiInfo(d.value.kaiId, Left) else r.defaultLeftKai,
      if d.Some? then KaiInfo(d.value.kaiId, Right) else r.defaultRightKai)
  }

  /** The entries of `a + b` are those of `a`, then those of `b` unless one of `a` threw. */
  lemma {:induction false} EntriesAppend(s: State, a: seq<Json>, b: seq<Json>)
    ensures Entries(s, a + b) == var st := Entries(s, a); if st.Threw? then st else Entries(st.state, b)
    decreases |b|
  {
    if b == [] {
      assert a + b == a;
    } else {
      var b' := b[..|b| - 1];
      assert (a + b)[..|a + b| - 1] == a + b';
      assert (a + b)[|a + b| - 1] == b[|b| - 1];
      EntriesAppend(s, a, b');
    }
  }

  /** One pass of the `kais` loop, in terms of the entry's claim: it gets through exactly when
      the entry is accepted, and then moves the flagged aliases and fills the entry's slot. An
      entry whose fields do not convert throws with nothing written; one whose id is out of
      range throws after the alias moves, which stay. */
  lemma EntryByClaim(s: State, token: Json)
    requires |s.registry.slots| == TableSize
    ensures Entry(s, token).state == s.(registry := Entry(s, token).state.registry)
    ensures |Entry(s, token).state.registry.slots| == TableSize
    ensures Entry(s, token).Done? <==> Accepted(token)
    ensures Accepted(token) ==>
              var c := ClaimOf(token).value;
              Entry(s, token).state.registry
              == MovedAliases(s.registry, c.kaiId, c.hand, c.isDefault, c.isDefault, c.isDefault)
                   .(slots := s.registry.slots[c.kaiId := Some(KaiInfo(c.kaiId, c.hand))])
    ensures ClaimOf(token).None? ==> Entry(s, token) == Threw(s)
    ensures ClaimOf(token).Some? && !Accepted(token) ==>
              var c := ClaimOf(token).value;
              Entry(s, token)
              == Threw(s.(registry := MovedAliases(s.registry, c.kaiId, c.hand, c.isDefault, c.isDefault, c.isDefault)))
  {
  }

  /** `Rebuilt` one accepted entry further is that entry's pass over the registry before it. */
  lemma RebuiltAppend(r: Registry, items: seq<Json>)
    requires |r.slots| == TableSize && items != [] && Accepted(items[|items| - 1])
    ensures var c, before := ClaimOf(items[|items| - 1]).value, Rebuilt(r, items[..|items| - 1]);
            Rebuilt(r, items)
            == MovedAliases(before, c.kaiId, c.hand, c.isDefault, c.isDefault, c.isDefault)
                 .(slots := before.slots[c.kaiId := Some(KaiInfo(c.kaiId, c.hand))])
  {
    var c, before := ClaimOf(items[|items| - 1]).value, Rebuilt(r, items[..|items| - 1]);
    assert Rebuilt(r, items).slots == before.slots[c.kaiId := Some(KaiInfo(c.kaiId, c.hand))];
  }

  /** The `kais` loop one entry further. */
  lemma EntriesStep(s: State, items: seq<Json>, i: int)
    requires 0 <= i < |items|
    ensures Entries(s, items[..i + 1])
            == var before := Entries(s, items[..i]); if before.Threw? then before else Entry(before.state, items[i])
  {
    assert items[..i + 1][..i] == items[..i];
  }

  /** An entry that throws ends the `kais` loop: the entries after it are not run. */
  lemma EntriesStopAt(s: State, items: seq<Json>, i: int)
    requires 0 <= i < |items| && Entries(s, items[..i + 1]).Threw?
    ensures Entries(s, items) == Entries(s, items[..i + 1])
  {
    EntriesAppend(s, items[..i + 1], items[i + 1..]);
    assert items[..i + 1] + items[i + 1..] == items;
  }

  /** The `kais` loop gets through the list exactly when every entry is accepted, and then
      leaves the registry `Rebuilt` describes. Whatever happens it changes only the registry
      and keeps the table's size. */
  lemma {:induction false} EntriesReference(s: State, items: seq<Json>)
    requires |s.registry.slots| == TableSize
    ensures Entries(s, items).state == s.(registry := Entries(s, items).state.registry)
    ensures |Entries(s, items).state.registry.slots| == TableSize
    ensures Entries(s, items).Done? <==> forall j :: 0 <= j < |items| ==> Accepted(items[j])
    ensures Entries(s, items).Done? ==> Entries(s, items).state == s.(registry := Rebuilt(s.registry, items))
    decreases |items|
  {
    if items == [] {
      assert Rebuilt(s.registry, items).slots == s.registry.slots;
    } else {
      var init, last := items[..|items| - 1], items[|items| - 1];
      EntriesReference(s, init);
      var before := Entries(s, init);
      if before.Done? {
        assert forall j :: 0 <= j < |init| ==> init[j] == items[j];
        EntryByClaim(before.state, last);
        if Accepted(last) {
          RebuiltAppend(s.registry, items);
        }
      } else {
        assert exists j :: 0 <= j < |init| && !Accepted(init[j]);
        var j :| 0 <= j < |init| && !Accepted(init[j]);
        assert items[j] == init[j];
      }
    }
  }

  /** The `kais` loop up to its first rejected entry `i`: it throws, keeping the entries
      before `i` as `Rebuilt` describes, plus the alias moves of entry `i` itself when its
      fields convert but its id is out of range. Nothing is rolled back. */
  lemma EntriesUpToRejected(s: State, items: seq<Json>, i: int)
    requires |s.registry.slots| == TableSize
    requires 0 <= i < |items| && !Accepted(items[i])
    requires forall j :: 0 <= j < i ==> Accepted(items[j])
    ensures Entries(s, items).Threw?
    ensures Entries(s, items).state.registry.slots == Rebuilt(s.registry, items[..i]).slots
    ensures Entries(s, items).state
            == var kept := Rebuilt(s.registry, items[..i]);
               var c := ClaimOf(items[i]);
               s.(registry := if c.None? then kept
                              else MovedAliases(kept, c.value.kaiId, c.value.hand, c.value.isDefault, c.value.isDefault, c.value.isDefault))
  {
    assert forall j :: 0 <= j < |items[..i]| ==> items[..i][j] == items[j];
    EntriesReference(s, items[..i]);
    EntryByClaim(Entries(s, items[..i]).state, items[i]);
    EntriesStep(s, items, i);
    EntriesStopAt(s, items, i);
  }

  /** A `connectedKais` list rebuilds the table from scratch: slot `i` ends up holding the
      last entry with id `i` and every other slot is empty; the three aliases follow the last
      entry flagged `defaultKai` and are kept when none is. The call completes exactly when
      every entry is accepted. A `null` list empties the table and throws. */
  lemma ConnectedKaisLastWins(s: State, input: Object, items: seq<Json>)
    requires Get(input, C.Kais) == Some(JArray(items))
    ensures ConnectedKais(s, input).Done? <==> forall j :: 0 <= j < |items| ==> Accepted(items[j])
    ensures ConnectedKais(s, input).Done? ==>
              var r := ConnectedKais(s, input).state.registry;
              && ConnectedKais(s, input).state == s.(registry := Rebuilt(s.registry.(slots := EmptyTable()), items))
              && |r.slots| == TableSize
              && forall i :: 0 <= i < TableSize ==> r.slots[i] == LastInSlot(items, i)
  {
    var s1 := s.(registry := s.registry.(slots := EmptyTable()));
    EntriesReference(s1, items);
  }

  lemma ConnectedKaisNullList(s: State, input: Object)
    requires Get(input, C.Kais) == Some(JNull)
    ensures ConnectedKais(s, input) == Threw(s.(registry := s.registry.(slots := EmptyTable())))
    ensures forall i :: 0 <= i < TableSize ==> ConnectedKais(s, input).state.registry.slots[i] == None
  {
  }

  /** The `defaultLeftKai` and `defaultRightKai` fields of an entry are never read: an entry
      that carries only `defaultLeftKai: true` fills its slot and leaves every alias as it was. */
  lemma LeftFlagIgnored(s: State)
    ensures var entry := JObject(map[C.KaiId := JInt(1), C.Hand := JString("Left"), C.DefaultLeftKai := JBool(true)]);
            ConnectedKais(s, map[C.Kais := JArray([entry])])
            == Done(s.(registry := s.registry.(slots := EmptyTable()[1 := Some(KaiInfo(1, Left))])))
  {
    var entry := JObject(map[C.KaiId := JInt(1), C.Hand := JString("Left"), C.DefaultLeftKai := JBool(true)]);
    var items := [entry];
    ConnectedKaisLastWins(s, map[C.Kais := JArray(items)], items);
    assert ClaimOf(entry) == Some(Claim(1, Left, false));
    assert LastDefault(items) == None by { assert items[..0] == []; }
    assert forall i :: 0 <= i < TableSize && i != 1 ==> LastInSlot(items, i) == None by { assert items[..0] == []; }
  }

  // ---------------------------------------------------------------- Handle

  /** `t` keeps `s`'s configuration and outbox, extends its log and keeps the table's size. */
  predicate KeepsConfiguration(s: State, t: State)
  {
    && t.initialised == s.initialised
    && t.moduleId == s.moduleId && t.moduleSecret == s.moduleSecret
    && t.unknownDataAttached == s.unknownDataAttached
    && t.outbox == s.outbox
    && s.log <= t.log
    && |t.registry.slots| == |s.registry.slots|
  }

  lemma IncomingDataKeepsConfiguration(s: State, input: Object, faulty: Event -> bool)
    ensures KeepsConfiguration(s, IncomingData(s, input, faulty).state)
  {
    IncomingDataEffect(s, input, faulty);
  }

  lemma ConnectedKaisKeepsConfiguration(s: State, input: Object)
    requires |s.registry.slots| == TableSize
    ensures KeepsConfiguration(s, ConnectedKais(s, input).state)
  {
    match ToArray(Get(input, C.Kais))
    case Ok(Some(items)) =>
      EntriesReference(s.(registry := s.registry.(slots := EmptyTable())), items);
    case _ =>
  }

  lemma HandleObjectKeepsConfiguration(s: State, input: Object, faulty: Event -> bool)
    requires |s.registry.slots| == TableSize
    ensures KeepsConfiguration(s, HandleObject(s, input, faulty).state)
  {
    var success, t := ToBool(Get(input, C.Success)), ToStr(Get(input, C.Type));
    if success == Ok(true) && t == Ok(Some(C.IncomingData)) {
      assert HandleObject(s, input, faulty) == IncomingData(s, input, faulty);
      IncomingDataKeepsConfiguration(s, input, faulty);
    } else if success == Ok(true) && t == Ok(Some(C.ConnectedKais)) {
      assert HandleObject(s, input, faulty) == ConnectedKais(s, input);
      ConnectedKaisKeepsConfiguration(s, input);
    }
  }

  /** `Handle` never changes the module's configuration or the outbox, and only appends to
      the log; before `Initialise`, and on text that is not a JSON object, it changes nothing. */
  lemma HandleKeepsConfiguration(s: State, raw: RawMessage, faulty: Event -> bool)
    requires |s.registry.slots| == TableSize
    ensures KeepsConfiguration(s, Handle(s, raw, faulty))
    ensures !s.initialised || raw.Malformed? || (raw.Parsed? && !raw.json.JObject?) ==> Handle(s, raw, faulty) == s
  {
    if s.initialised && raw.Parsed? && raw.json.JObject? {
      HandleObjectKeepsConfiguration(s, raw.json.fields, faulty);
    }
  }

  /** An envelope with `success: false` only reports the error triple, whatever its `type`;
      when one of the three fields does not convert, nothing is reported. */
  lemma ErrorEnvelope(s: State, input: Object, faulty: Event -> bool)
    requires s.initialised && Get(input, C.Success) == Some(JBool(false))
    ensures var code, error, message := ToInt(Get(input, C.ErrorCode)), ToStr(Get(input, C.Error)), ToStr(Get(input, C.Message));
            Handle(s, Parsed(JObject(input)), faulty)
            == if code.Ok? && error.Ok? && message.Ok? then s.(log := s.log + [ErrorRaised(code.value, error.value, message.value)]) else s
  {
  }

  /** A successful envelope whose type is `null` or one the SDK does not know goes, whole,
      to `UnknownData`. */
  lemma UnknownEnvelope(s: State, input: Object, t: Option<string>, faulty: Event -> bool)
    requires s.initialised && Get(input, C.Success) == Some(JBool(true))
    requires Get(input, C.Type) == Some(if t.Some? then JString(t.value) else JNull)
    requires t != Some(C.Authentication) && t != Some(C.IncomingData) && t != Some(C.ConnectedKais)
    ensures Handle(s, Parsed(JObject(input)), faulty) == s.(log := s.log + [UnknownDataRaised(input)])
  {
  }

  /** An `authentication` envelope sets the flag to the value it carries; one whose value is
      not a boolean leaves the state as it was. */
  lemma AuthenticationEnvelope(s: State, input: Object, faulty: Event -> bool)
    requires s.initialised && Get(input, C.Success) == Some(JBool(true)) && Get(input, C.Type) == Some(JString(C.Authentication))
    ensures Handle(s, Parsed(JObject(input)), faulty)
            == match Get(input, C.Authenticated) case Some(JBool(b)) => s.(authenticated := b) case _ => s
  {
  }

  /** A `data` array of one decodable fragment fires that fragment's reading. */
  lemma SingleFragment(s: State, route: Route, envelope: Object, frag: Object, k: Kind, r: Reading, faulty: Event -> bool)
    requires Get(frag, C.Type) == Some(JString(KindTag(k))) && Decode(k, frag) == Ok(r)
    ensures Fragments(s, route, envelope, [JObject(frag)], faulty) == Fire(s, route, r, faulty)
  {
    assert [JObject(frag)][..0] == [];
    KindOfIff(Some(KindTag(k)), k);
  }

  /** The header of an `incomingData` envelope picks the route its one fragment is fired on. */
  lemma IncomingDataFires(s: State, input: Object, process: Option<string>, kaiId: int, isDefault: bool, isDefaultLeft: bool,
                          isDefaultRight: bool, frag: Object, k: Kind, r: Reading, faulty: Event -> bool)
    requires |s.registry.slots| == TableSize
    requires Get(input, C.ForegroundProcess) == Some(if process.Some? then JString(process.value) else JNull)
    requires Get(input, C.KaiId) == Some(JInt(kaiId)) && 0 <= kaiId < TableSize
    requires Get(input, C.DefaultKai) == Some(JBool(isDefault))
    requires Get(input, C.DefaultLeftKai) == Some(JBool(isDefaultLeft))
    requires Get(input, C.DefaultRightKai) == Some(JBool(isDefaultRight))
    requires Get(input, C.Data) == Some(JArray([JObject(frag)]))
    requires Get(frag, C.Type) == Some(JString(KindTag(k))) && Decode(k, frag) == Ok(r)
    ensures IncomingData(s, input, faulty)
            == Fire(s.(foregroundProcess := process), Route(kaiId, s.registry.slots[kaiId].Some?, isDefault, isDefaultLeft, isDefaultRight), r, faulty)
  {
    var s1 := s.(foregroundProcess := process);
    SingleFragment(s1, Route(kaiId, s.registry.slots[kaiId].Some?, isDefault, isDefaultLeft, isDefaultRight), input, frag, k, r, faulty);
  }

  /** One `incomingData` envelope end to end. An envelope from slot `kaiId` that carries one
      decodable fragment records the foreground process, then hands the reading to the router
      with the envelope's three alias flags and whether the slot holds a device. With
      subscribers that do not throw, the log gains the flagged alias deliveries and, when the
      slot holds a device, the device's and `AnyKai`'s; with an empty slot only the former. */
  lemma IncomingDataDelivers(s: State, input: Object, process: Option<string>, kaiId: int, isDefault: bool, isDefaultLeft: bool,
                             isDefaultRight: bool, frag: Object, k: Kind, r: Reading, faulty: Event -> bool)
    requires s.initialised && |s.registry.slots| == TableSize
    requires Get(input, C.Success) == Some(JBool(true)) && Get(input, C.Type) == Some(JString(C.IncomingData))
    requires Get(input, C.ForegroundProcess) == Some(if process.Some? then JString(process.value) else JNull)
    requires Get(input, C.KaiId) == Some(JInt(kaiId)) && 0 <= kaiId < TableSize
    requires Get(input, C.DefaultKai) == Some(JBool(isDefault))
    requires Get(input, C.DefaultLeftKai) == Some(JBool(isDefaultLeft))
    requires Get(input, C.DefaultRightKai) == Some(JBool(isDefaultRight))
    requires Get(input, C.Data) == Some(JArray([JObject(frag)]))
    requires Get(frag, C.Type) == Some(JString(KindTag(k))) && Decode(k, frag) == Ok(r)
    ensures var route := Route(kaiId, s.registry.slots[kaiId].Some?, isDefault, isDefaultLeft, isDefaultRight);
            Handle(s, Parsed(JObject(input)), faulty) == Fire(s.(foregroundProcess := process), route, r, faulty).state
    ensures (forall e :: !faulty(e)) ==>
              var route := Route(kaiId, s.registry.slots[kaiId].Some?, isDefault, isDefaultLeft, isDefaultRight);
              Handle(s, Parsed(JObject(input)), faulty)
              == s.(foregroundProcess := process,
                    log := s.log + AliasDeliveries(route, r) + (if route.devicePresent then DeviceDeliveries(route, r) else []))
  {
    var s1 := s.(foregroundProcess := process);
    var route := Route(kaiId, s.registry.slots[kaiId].Some?, isDefault, isDefaultLeft, isDefaultRight);
    IncomingDataFires(s, input, process, kaiId, isDefault, isDefaultLeft, isDefaultRight, frag, k, r, faulty);
    assert HandleObject(s, input, faulty) == IncomingData(s, input, faulty);
    if forall e :: !faulty(e) {
      FireWithoutFaults(s1, route, r, faulty);
      assert s1.log + AliasDeliveries(route, r) + [] == s1.log + AliasDeliveries(route, r);
    }
  }

  // ---------------------------------------------------------------- capabilities

  lemma CapabilityFieldsDistinct(c1: KaiCapabilities, c2: KaiCapabilities)
    ensures CapabilityField(c1) == CapabilityField(c2) ==> c1 == c2
    ensures CapabilityField(c1) != C.Type
  {
  }

  /** Every field of the capability request is its `type` or the announcement of a
      capability the mask has. */
  lemma CapabilityMessageFieldsFromMask(mask: bv32, f: Field)
    requires f in CapabilityMessage(mask)
    ensures f == Field(C.Type, JString(C.SetCapabilities)) || exists c :: HasFlag(mask, c) && f == Field(CapabilityField(c), JBool(true))
  {
    if f in Announcement(mask, GestureData) {
      assert HasFlag(mask, GestureData) && f == Field(CapabilityField(GestureData), JBool(true));
    } else if f in Announcement(mask, LinearFlickData) {
      assert HasFlag(mask, LinearFlickData) && f == Field(CapabilityField(LinearFlickData), JBool(true));
    } else if f in Announcement(mask, FingerShortcutData) {
      assert HasFlag(mask, FingerShortcutData) && f == Field(CapabilityField(FingerShortcutData), JBool(true));
    } else if f in Announcement(mask, FingerPositionalData) {
      assert HasFlag(mask, FingerPositionalData) && f == Field(CapabilityField(FingerPositionalData), JBool(true));
    } else if f in Announcement(mask, PYRData) {
      assert HasFlag(mask, PYRData) && f == Field(CapabilityField(PYRData), JBool(true));
    } else if f in Announcement(mask, QuaternionData) {
      assert HasFlag(mask, QuaternionData) && f == Field(CapabilityField(QuaternionData), JBool(true));
    } else if f in Announcement(mask, AccelerometerData) {
      assert HasFlag(mask, AccelerometerData) && f == Field(CapabilityField(AccelerometerData), JBool(true));
    } else if f in Announcement(mask, GyroscopeData) {
      assert HasFlag(mask, GyroscopeData) && f == Field(CapabilityField(GyroscopeData), JBool(true));
    } else if f in Announcement(mask, MagnetometerData) {
      assert HasFlag(mask, MagnetometerData) && f == Field(CapabilityField(MagnetometerData), JBool(true));
    } else {
      assert f in [Field(C.Type, JString(C.SetCapabilities))];
    }
  }

  /** The announcement of every capability the mask has is in the capability request. */
  lemma CapabilityMessageHasAnnouncements(mask: bv32, c: KaiCapabilities)
    requires HasFlag(mask, c)
    ensures Field(CapabilityField(c), JBool(true)) in CapabilityMessage(mask)
  {
    var f := Field(CapabilityField(c), JBool(true));
    assert f in Announcement(mask, c);
    match c
    case GestureData =>
    case LinearFlickData =>
    case FingerShortcutData =>
    case FingerPositionalData =>
    case PYRData =>
    case QuaternionData =>
    case AccelerometerData =>
    case GyroscopeData =>
    case MagnetometerData =>
  }

  /** The capability request announces a capability, with the value `true`, exactly when the
      mask has it; its other fields are its `type` and announcements of capabilities the mask has. */
  lemma CapabilityAnnounced(mask: bv32, c: KaiCapabilities)
    ensures Field(CapabilityField(c), JBool(true)) in CapabilityMessage(mask) <==> HasFlag(mask, c)
    ensures CapabilityMessage(mask)[0] == Field(C.Type, JString(C.SetCapabilities))
    ensures forall f :: f in CapabilityMessage(mask) && f.key != C.Type ==>
              f.value == JBool(true) && exists c' :: HasFlag(mask, c') && f.key == CapabilityField(c')
  {
    var f := Field(CapabilityField(c), JBool(true));
    CapabilityFieldsDistinct(c, c);
    if HasFlag(mask, c) {
      CapabilityMessageHasAnnouncements(mask, c);
    }
    if f in CapabilityMessage(mask) {
      CapabilityMessageFieldsFromMask(mask, f);
      var c' :| HasFlag(mask, c') && f == Field(CapabilityField(c'), JBool(true));
      CapabilityFieldsDistinct(c, c');
    }
    forall f | f in CapabilityMessage(mask) && f.key != C.Type
      ensures f.value == JBool(true) && exists c' :: HasFlag(mask, c') && f.key == CapabilityField(c')
    {
      CapabilityMessageFieldsFromMask(mask, f);
    }
  }

  /** Because the enum values are 0..8 rather than bits, every request announces
      `gestureData`, even for the mask 0. */
  lemma EveryRequestAnnouncesGestures(mask: bv32)
    ensures Field(C.GestureData, JBool(true)) in CapabilityMessage(mask)
  {
    GestureFlagInEveryMask(mask);
    CapabilityAnnounced(mask, GestureData);
  }
}
