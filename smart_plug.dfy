/** The smart-plug node (nodes/smart-plug.js) as a state machine on values:
    the enabled-actions list kept in the node context, the device instances
    (the parent plug at index 0 followed by the outlets of a power strip), the
    connected flag, and the logs of requested operations, sent messages and
    reported errors. Each handler of the node (an input message, the
    completion of the asynchronous connect, a native device event) is one
    step function here; the class in smart_plug_node.dfy performs the same
    steps in place. Device objects are numbered references. */
module SmartPlugs {
  import opened Strings
  import opened JsValues
  import opened DeviceApi
  import opened KasaStatus

  /** The event subscriptions an input may enable. */
  const EventActions: seq<string> :=
    ["getMeterUpdateEvents", "getPowerEvents", "getPowerUpdateEvents",
     "getInUseEvents", "getInUseUpdateEvents", "getOnlineEvents"]

  datatype PlugOut =
    | InfoOut(op: Op, plug: Option<int>)              // the reply to a query, with `payload.plug` when set
    | EventOut(event: string, value: JsValue, device: int) // a native device event and its instance index
    | OnlineOut(event: string, state: string, address: string) // `payload.device` is the configured address

  /** A promise whose settlement the node awaits: the reply to a query (sent
      on success, with the instance index when `withPlug`), or the joint
      promise of an object input, which only has a failure handler. */
  datatype Pending = Reply(ref: nat, op: Op, withPlug: bool) | Joint(op: Op)

  datatype Plug = Plug(
    configured: bool,             // a device address is set, so the handlers are registered
    action: seq<string>,
    instances: Option<seq<nat>>,  // None once `stopAll` has deleted the array
    connected: bool,
    status: Status,
    clients: nat,                 // clients created by connectClient
    discovering: bool,
    polling: set<nat>,
    closed: set<nat>,
    nextRef: nat,
    issued: seq<Request>,
    sent: seq<PlugOut>,
    errors: seq<Failure>)

  /** Every reachable state: while connected the instance array exists, and
      every instance is a device object already created. */
  ghost predicate Valid(p: Plug)
  {
    && (p.connected ==> p.instances.Some?)
    && (p.instances.Some? ==> forall i :: 0 <= i < |p.instances.value| ==> p.instances.value[i] < p.nextRef)
  }

  // ---------------------------------------------------------------------------
  // Pure decisions

  /** A string TRUE/ON (in any case) becomes `true`, FALSE/OFF `false`;
      every other value is left as it is. */
  function Normalise(v: JsValue): JsValue
  {
    if v.Str? then
      var u := Upper(v.s);
      if u == "TRUE" || u == "ON" then Bool(true)
      else if u == "FALSE" || u == "OFF" then Bool(false)
      else v
    else v
  }

  lemma NormaliseWords(v: JsValue)
    ensures Normalise(v) == Bool(true) <==>
      v == Bool(true) || (v.Str? && (SpellsIgnoringCase(v.s, "TRUE") || SpellsIgnoringCase(v.s, "ON")))
    ensures Normalise(v) == Bool(false) <==>
      v == Bool(false) || (v.Str? && (SpellsIgnoringCase(v.s, "FALSE") || SpellsIgnoringCase(v.s, "OFF")))
    ensures !Normalise(v).Bool? ==> Normalise(v) == v
  {
    if v.Str? {
      UpperEqualsIff(v.s, "TRUE");
      UpperEqualsIff(v.s, "ON");
      UpperEqualsIff(v.s, "FALSE");
      UpperEqualsIff(v.s, "OFF");
    }
  }

  /** What `sendInput` does with its (normalised) input: the cases of its
      switch, compared with strict equality. */
  datatype Command =
    | SetPower(on: bool)
    | Toggle
    | ParentQuery(op: Op)                 // asked of the parent, instance 0
    | DeviceQuery(op: Op, withPlug: bool) // asked of the given device
    | ClearEvents
    | Other(v: JsValue)

  function Classify(input: JsValue): Command
  {
    var v := Normalise(input);
    if v.Bool? then SetPower(v.b)
    else if v == Str("toggle") then Toggle
    else if v == Str("getInfo") then ParentQuery(GetSysInfo)
    else if v == Str("getCloudInfo") then ParentQuery(GetCloudInfo)
    else if v == Str("getQuickInfo") then DeviceQuery(GetInfo, true)
    else if v == Str("getMeterInfo") then DeviceQuery(GetMeterRealtime, true)
    else if v == Str("clearEvents") then ClearEvents
    else if v == Str("eraseStats") then DeviceQuery(EraseStats, false)
    else Other(v)
  }

  /** Booleans and the power words set the power state; only the exact
      lowercase 'toggle' toggles, so 'TOGGLE' or 'Toggle' falls through. */
  lemma ClassifyPower(input: JsValue)
    ensures Classify(input) == SetPower(true) <==>
      input == Bool(true) || (input.Str? && (SpellsIgnoringCase(input.s, "TRUE") || SpellsIgnoringCase(input.s, "ON")))
    ensures Classify(input) == SetPower(false) <==>
      input == Bool(false) || (input.Str? && (SpellsIgnoringCase(input.s, "FALSE") || SpellsIgnoringCase(input.s, "OFF")))
    ensures Classify(input) == Toggle <==> input == Str("toggle")
  {
    NormaliseWords(input);
    if input == Str("toggle") {
      assert Upper("toggle") == "TOGGLE";
    }
  }

  /** The default branch: an event name not yet enabled is appended; anything
      else leaves the list as it is. */
  function Enable(action: seq<string>, v: JsValue): (r: seq<string>)
    ensures r == action || (v.Str? && v.s in EventActions && v.s !in action && r == action + [v.s])
  {
    if v.Str? && v.s in EventActions && v.s !in action then action + [v.s] else action
  }

  /** Enabling is idempotent, enables exactly the event names, and keeps the
      list free of duplicates. */
  lemma EnableSpec(action: seq<string>, v: JsValue)
    ensures Enable(Enable(action, v), v) == Enable(action, v)
    ensures forall a :: a in Enable(action, v) <==> a in action || (v.Str? && v.s == a && a in EventActions)
    ensures !(v.Str? && v.s in EventActions) ==> Enable(action, v) == action
    ensures NoDuplicates(action) ==> NoDuplicates(Enable(action, v))
  {
  }

  ghost predicate NoDuplicates(xs: seq<string>)
  {
    forall i, j :: 0 <= i < j < |xs| ==> xs[i] != xs[j]
  }

  /** `deviceInstance[key]`: an index is a property key spelling a position
      of the array in decimal without leading zeros; any other key reads as
      undefined. */
  function At(xs: seq<nat>, key: JsValue): (r: Option<nat>)
    ensures r.Some? ==> r.value in xs
  {
    var s := ToJsString(key);
    var k := DigitsValue(s);
    if s == NatToString(k) && k < |xs| then Some(xs[k]) else None
  }

  /** A number or a decimal string indexes the array directly. */
  lemma AtIndex(xs: seq<nat>, k: nat)
    requires k < |xs|
    ensures At(xs, Num(k)) == Some(xs[k])
    ensures At(xs, Str(NatToString(k))) == Some(xs[k])
  {
    DigitsValueOfNatToString(k);
  }

  /** `deviceInstance.findIndex(x => x === r)`, -1 when absent. */
  function FindIndex(xs: seq<nat>, r: nat): (i: int)
    ensures -1 <= i < |xs|
    ensures i >= 0 ==> xs[i] == r && r !in xs[..i]
    ensures i == -1 <==> r !in xs
  {
    if |xs| == 0 then -1
    else if xs[0] == r then 0
    else
      var j := FindIndex(xs[1..], r);
      assert xs[1..][..if j >= 0 then j else 0] == xs[1..if j >= 0 then j + 1 else 1];
      if j == -1 then -1 else j + 1
  }

  function Members(xs: seq<nat>): (r: set<nat>)
    ensures forall x :: x in r <==> x in xs
  {
    set x | x in xs
  }

  /** The first element of the array, undefined when it is empty. */
  function First(xs: seq<nat>): Option<nat>
  {
    if |xs| == 0 then None else Some(xs[0])
  }

  // ---------------------------------------------------------------------------
  // Connection steps

  /** connectClient, up to its asynchronous part: a new client, an empty
      instance array, the connected flag set at once, discovery started. */
  function ConnectClient(p: Plug): Plug
  {
    p.(clients := p.clients + 1, instances := Some([]), connected := true,
       status := Status("green", "dot", "Connected"), discovering := true)
  }

  /** The node as constructed: an empty action list, and a connecting client
      unless no device address is configured. */
  function Initial(deviceIP: string): Plug
  {
    var p := Plug(deviceIP != "", [], Some([]), false, Status("grey", "dot", "Initializing…"), 0, false, {}, {}, 0, [], [], []);
    if deviceIP == "" then p.(status := Status("red", "ring", "Not Configured")) else ConnectClient(p)
  }

  /** stopAll: stops and closes every instance and deletes the array; with
      the array already deleted the iteration throws (the result's flag). */
  function StopAll(p: Plug): (Plug, bool)
  {
    var p1 := p.(status := Status("red", "ring", "Disconnected"), connected := false);
    match p.instances
    case None => (p1, true)
    case Some(xs) =>
      (p1.(polling := p.polling - Members(xs), closed := p.closed + Members(xs), instances := None, discovering := false), false)
  }

  /** handleConnectionError: logs the error when there is one, marks the node
      disconnected, stops everything and reconnects; when stopAll throws, the
      reconnect is never reached. */
  function HandleConnectionError(p: Plug, error: Option<Failure>): (r: (Plug, bool))
  {
    var p1 := p.(errors := p.errors + (if error.Some? then [error.value] else []),
                 status := Status("red", "ring", "Error"), connected := false);
    var (p2, thrown) := StopAll(p1);
    if thrown then (p2, true) else (ConnectClient(p2), false)
  }

  /** The asynchronous part of connectClient once `getDevice` settles:
      `children` is the number of outlets when the device has a children map.
      The outlets (or, without a map, the device itself) are monitored, then
      the parent is put at index 0. `unshift` on a deleted array throws, and
      the failure handler reconnects. */
  function ConnectResolved(p: Plug, children: Option<nat>, ok: bool): Plug
  {
    if !ok then HandleConnectionError(p, None).0
    else
      var parent := p.nextRef;
      match children
      case Some(k) =>
        var kids := seq(k, j => p.nextRef + 1 + j);
        p.(nextRef := p.nextRef + 1 + k, polling := p.polling + Members(kids), instances := Some([parent] + kids))
      case None =>
        var p1 := p.(nextRef := p.nextRef + 1, polling := p.polling + {parent});
        if p.instances.None? then HandleConnectionError(p1, None).0
        else p1.(instances := Some([parent] + p.instances.value))
  }

  // ---------------------------------------------------------------------------
  // Inputs

  /** sendInput(device, input): the requests it issues, the promises it
      leaves pending, and whether it throws (a method called on an undefined
      device). */
  function SendInput(p: Plug, device: Option<nat>, input: JsValue): (r: (Plug, seq<Pending>, bool))
    requires p.instances.Some?
  {
    match Classify(input)
    case SetPower(b) =>
      if device.None? then (p, [], true)
      else (p.(issued := p.issued + [Request(device.value, SetPowerState(Bool(b)))]), [], false)
    case Toggle =>
      if device.None? then (p, [], true)
      else (p.(issued := p.issued + [Request(device.value, TogglePowerState)]), [], false)
    case ParentQuery(op) =>
      var xs := p.instances.value;
      if |xs| == 0 then (p, [], true)
      else (p.(issued := p.issued + [Request(xs[0], op)]), [Reply(xs[0], op, false)], false)
    case DeviceQuery(op, withPlug) =>
      if device.None? then (p, [], true)
      else (p.(issued := p.issued + [Request(device.value, op)]), [Reply(device.value, op, withPlug)], false)
    case ClearEvents => (p.(action := []), [], false)
    case Other(v) => (p.(action := Enable(p.action, v)), [], false)
  }

  /** `events.forEach(event => sendInput(device, event))`, stopping at the
      first throw. */
  function SendAll(p: Plug, device: Option<nat>, events: seq<JsValue>): (r: (Plug, seq<Pending>, bool))
    requires p.instances.Some?
    ensures r.0.instances == p.instances
    decreases |events|
  {
    if |events| == 0 then (p, [], false)
    else
      var (p1, q1, t1) := SendAll(p, device, events[..|events| - 1]);
      if t1 then (p1, q1, true)
      else
        var (p2, q2, t2) := SendInput(p1, device, events[|events| - 1]);
        (p2, q1 + q2, t2)
  }

  /** The state-normalisation of an object input carrying brightness or led:
      only the exact string 'toggle' toggles, anything else (undefined
      included) is passed to setPowerState. */
  function StateOp(state: JsValue): Op
  {
    var v := Normalise(state);
    if v == Str("toggle") then TogglePowerState else SetPowerState(v)
  }

  /** The requests an object input with brightness or led sends to the parent. */
  function ObjectOps(payload: JsValue): (ops: seq<Op>)
    requires payload.Object?
    ensures |ops| >= 1 <== HasOwn(payload, "brightness") || HasOwn(payload, "led")
  {
    var m := payload.fields;
    (if "state" in m then [StateOp(m["state"])] else [])
    + (if "brightness" in m then [SetBrightness(m["brightness"])] else [])
    + (if "led" in m then [SetLedState(m["led"])] else [])
  }

  /** An object input, before its `events` field: brightness or led send the
      whole request to the parent at once; otherwise `plug` selects the
      device for `state`, or `state` goes to the parent. */
  function ObjectInput(p: Plug, payload: JsValue): (r: (Plug, seq<Pending>, bool))
    requires p.instances.Some? && payload.Object?
  {
    var xs := p.instances.value;
    var m := payload.fields;
    if "brightness" in m || "led" in m then
      var ops := ObjectOps(payload);
      if |xs| == 0 then (p, [], true)
      else (p.(issued := p.issued + Requests(xs[0], ops)), [Joint(ops[0])], false)
    else if "plug" in m then
      SendInput(p, At(xs, m["plug"]), if "state" in m then m["state"] else Undefined)
    else if "state" in m then SendInput(p, First(xs), m["state"])
    else (p, [], false)
  }

  /** The synchronous part of the input handler while connected. */
  function Dispatch(p: Plug, payload: JsValue): (r: (Plug, seq<Pending>, bool))
    requires p.instances.Some?
  {
    var xs := p.instances.value;
    match payload
    case Object(m) =>
      var (p1, q1, t1) := ObjectInput(p, payload);
      if t1 || "events" !in m then (p1, q1, t1)
      else if m["events"].Array? then
        var (p2, q2, t2) := SendAll(p1, First(xs), m["events"].items);
        (p2, q1 + q2, t2)
      else (p1, q1, true)
    case Array(items) => SendAll(p, First(xs), items)
    case _ => SendInput(p, First(xs), payload)
  }

  /** One pending promise settling: success sends the reply (its instance
      index is looked up at that moment, and a deleted array makes the
      lookup throw into the failure handler); failure runs
      handleConnectionError. */
  function Settle(p: Plug, q: Pending, ok: bool): Plug
  {
    match q
    case Joint(op) => if ok then p else HandleConnectionError(p, Some(Rejected(op))).0
    case Reply(ref, op, withPlug) =>
      if !ok then HandleConnectionError(p, Some(Rejected(op))).0
      else if !withPlug then p.(sent := p.sent + [InfoOut(op, None)])
      else if p.instances.None? then HandleConnectionError(p, Some(ErrorText("TypeError"))).0
      else p.(sent := p.sent + [InfoOut(op, Some(FindIndex(p.instances.value, ref)))])
  }

  function SettleAll(p: Plug, qs: seq<Pending>, ok: bool): Plug
    decreases |qs|
  {
    if |qs| == 0 then p else Settle(SettleAll(p, qs[..|qs| - 1], ok), qs[|qs| - 1], ok)
  }

  /** The input handler: a node without an address registers none, so the
      input changes nothing; while disconnected it only reports 'Not
      Reachable' through handleConnectionError; otherwise it dispatches, and
      the promises it created settle afterwards, in order, all succeeding or
      all failing as `ok` says. */
  function Input(p: Plug, payload: JsValue, ok: bool): Plug
    requires Valid(p)
  {
    if !p.configured then p
    else if !p.connected then HandleConnectionError(p, Some(ErrorText("Not Reachable"))).0
    else
      var (p1, qs, _) := Dispatch(p, payload);
      SettleAll(p1, qs, ok)
  }

  // ---------------------------------------------------------------------------
  // Events

  datatype DeviceEvent =
    | PowerOn | PowerOff | PowerUpdate(powerOn: JsValue)
    | InUse | NotInUse | InUseUpdate(inUse: JsValue)
    | EmeterUpdate(reading: JsValue)

  function EventName(e: DeviceEvent): string
  {
    match e
    case PowerOn => "power-on"
    case PowerOff => "power-off"
    case PowerUpdate(_) => "power-update"
    case InUse => "in-use"
    case NotInUse => "not-in-use"
    case InUseUpdate(_) => "in-use-update"
    case EmeterUpdate(_) => "emeter-realtime-update"
  }

  /** The value sendEvent reports with the event. */
  function EventValue(e: DeviceEvent): JsValue
  {
    match e
    case PowerOn => Bool(true)
    case PowerOff => Bool(false)
    case PowerUpdate(v) => v
    case InUse => Bool(true)
    case NotInUse => Bool(false)
    case InUseUpdate(v) => v
    case EmeterUpdate(v) => v
  }

  /** The subscription that gates each device event. */
  function Gate(e: DeviceEvent): (a: string)
    ensures a in EventActions
  {
    match e
    case PowerOn => "getPowerEvents"
    case PowerOff => "getPowerEvents"
    case PowerUpdate(_) => "getPowerUpdateEvents"
    case InUse => "getInUseEvents"
    case NotInUse => "getInUseEvents"
    case InUseUpdate(_) => "getInUseUpdateEvents"
    case EmeterUpdate(_) => "getMeterUpdateEvents"
  }

  /** `checkAction`: membership in the enabled list. */
  predicate CheckAction(p: Plug, a: string)
  {
    a in p.action
  }

  /** sendEvent for an event of device object `ref`: sent only when its
      subscription is enabled, with the device's position in the array (the
      lookup throws once the array is deleted). */
  function DeviceEventStep(p: Plug, ref: nat, e: DeviceEvent): (r: (Plug, bool))
  {
    if !CheckAction(p, Gate(e)) then (p, false)
    else if p.instances.None? then (p, true)
    else (p.(sent := p.sent + [EventOut(EventName(e), EventValue(e), FindIndex(p.instances.value, ref))]), false)
  }

  /** sendEvent for the client's device-online / device-offline: sent when
      getOnlineEvents is enabled; the status follows the event either way. */
  function OnlineEventStep(p: Plug, host: string, online: bool): Plug
  {
    var event := if online then "device-online" else "device-offline";
    var p1 := if CheckAction(p, "getOnlineEvents")
      then p.(sent := p.sent + [OnlineOut(event, if online then "online" else "offline", host)])
      else p;
    p1.(status := if online then Status("green", "dot", "Online") else Status("red", "ring", "Offline"))
  }

  /** The close handler. */
  function Close(p: Plug): Plug
  {
    StopAll(p).0
  }
}
