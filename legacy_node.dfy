/** What the smart-bulb node (nodes/smart-bulb.js) and the older smart-plug
    node (smart-plug.bak.js) have in common: one device object, a connected
    flag, an is-alive timer that reconnects, an event-polling timer, the
    subscription string and the remembered on/off state in the node context,
    and the replies to the requests an input makes. The two sources differ
    only in texts, in where the on/off state is read, and in their input
    routing (SmartBulbs, SmartPlugBaks). */
module LegacyNodes {
  import opened Strings
  import opened JsValues
  import opened DeviceApi
  import opened KasaStatus
  import opened ActionStrings
  import opened BulbLights

  datatype Kind = Bulb | BakPlug

  datatype Out =
    | InfoOut(op: Op)            // the reply of a query, sent as the payload
    | PowerUpdateOut(powerOn: bool)
    | InUseOut(inUse: bool)
    | OnlineOut(online: bool)

  /** How the requests awaited in one step settle: all succeed or all fail;
      `info` is what getSysInfo resolves with, `reading` the formatted meter
      reading shown in the status. */
  datatype Reply = Reply(ok: bool, info: JsValue, reading: string)

  datatype Legacy = Legacy(
    configured: bool,        // a device address is set, so the handlers are registered
    action: Option<string>,  // context 'action'
    state: Option<string>,   // context 'state'
    connected: bool,
    device: Option<nat>,     // deviceInstance, null until the first connect
    status: Status,
    clients: nat,           // clients created by connectClient
    polling: bool,          // the event-polling timer is set
    pinging: bool,          // the is-alive timer is set
    nextRef: nat,
    issued: seq<Request>,
    sent: seq<Out>,
    errors: seq<Failure>)

  /** Every reachable state: while connected there is a device object. */
  ghost predicate Valid(b: Legacy)
  {
    && (b.connected ==> b.device.Some?)
    && (b.device.Some? ==> b.device.value < b.nextRef)
  }

  /** The subscription names each node recognises. */
  function EventActions(kind: Kind): seq<string>
  {
    match kind
    case Bulb => ["getMeterEvents", "getInfoEvents", "getPowerUpdateEvents", "getOnlineEvents"]
    case BakPlug => ["getMeterEvents", "getInfoEvents", "getPowerUpdateEvents", "getInUseEvents", "getOnlineEvents"]
  }

  lemma EventActionsShape(kind: Kind)
    ensures AllWellShaped(EventActions(kind))
  {
    MeterEventsShape();
    InfoEventsShape();
    PowerUpdateEventsShape();
    InUseEventsShape();
    OnlineEventsShape();
  }

  /** The events list of an input replaces the subscriptions: the recognised
      names in input order, joined by `|`, or ''. */
  function Subscribe(kind: Kind, items: seq<JsValue>): string
  {
    Stored(Recognised(items, EventActions(kind)))
  }

  /** After subscribing, a subscription is enabled exactly when its name was
      in the list. */
  lemma SubscribeEnables(kind: Kind, items: seq<JsValue>, a: string)
    requires a in EventActions(kind)
    ensures CheckAction(Some(Subscribe(kind, items)), a) <==> Str(a) in items
  {
    EventActionsShape(kind);
    var names := Recognised(items, EventActions(kind));
    assert AllWellShaped(names) by {
      forall k | 0 <= k < |names| ensures WellShaped(names[k]) {
        assert names[k] in names;
        var j :| 0 <= j < |EventActions(kind)| && EventActions(kind)[j] == names[k];
      }
    }
    var j :| 0 <= j < |EventActions(kind)| && EventActions(kind)[j] == a;
    StoredCheck(names, a);
  }

  /** The text of handleConnectionError's status. */
  function UnreachableText(kind: Kind): string
  {
    match kind
    case Bulb => "not reachable"
    case BakPlug => "Not reachable"
  }

  /** The error an input while disconnected reports. */
  function InputUnreachableText(kind: Kind): string
  {
    match kind
    case Bulb => "Not reachable"
    case BakPlug => "not reachable"
  }

  // ---------------------------------------------------------------------------
  // Connection

  function ConnectClient(b: Legacy): Legacy
  {
    b.(clients := b.clients + 1)
  }

  /** The node as constructed: with no address it only shows 'Not
      configured'; otherwise it connects and starts the is-alive timer. */
  function Initial(deviceIP: string): Legacy
  {
    var b := Legacy(deviceIP != "", None, None, false, None, Status("grey", "dot", "Initializing…"), 0, false, false, 0, [], [], []);
    if deviceIP == "" then b.(status := Status("red", "ring", "Not configured"))
    else ConnectClient(b).(pinging := true)
  }

  /** handleConnectionError: logs the error when there is one and marks the
      node disconnected; it does not reconnect (the is-alive timer does). */
  function HandleConnectionError(kind: Kind, b: Legacy, error: Option<Failure>): Legacy
  {
    b.(errors := b.errors + (if error.Some? then [error.value] else []),
       status := Status("red", "ring", UnreachableText(kind)), connected := false)
  }

  /** getDevice settles: on success a new device object becomes the
      instance, the node is connected and event polling starts. */
  function ConnectResolved(kind: Kind, b: Legacy, ok: bool): Legacy
  {
    if ok then
      b.(connected := true, device := Some(b.nextRef), nextRef := b.nextRef + 1,
         status := Status("yellow", "dot", "Connected"), polling := true)
    else HandleConnectionError(kind, b, None)
  }

  /** A tick of the is-alive timer, which fires only while the timer is set:
      while connected it asks the device for its info (a failure
      disconnects); otherwise it reconnects. */
  function IsAliveTick(kind: Kind, b: Legacy, ok: bool): Legacy
    requires Valid(b)
  {
    if !b.pinging then b
    else if b.connected then
      var b1 := b.(issued := b.issued + [Request(b.device.value, GetInfo)]);
      if ok then b1 else HandleConnectionError(kind, b1, None)
    else ConnectClient(b)
  }

  // ---------------------------------------------------------------------------
  // Replies

  /** The on/off state in the system information: `light_state.on_off === 1`
      for the bulb, `relay_state === 1` for the plug; None when reading it
      throws. */
  function OnOff(kind: Kind, info: JsValue): Option<bool>
  {
    match kind
    case Bulb =>
      (match Prop(info, "light_state")
       case None => None
       case Some(ls) => match Prop(ls, "on_off") case None => None case Some(v) => Some(v == Num(1)))
    case BakPlug =>
      (match Prop(info, "relay_state") case None => None case Some(v) => Some(v == Num(1)))
  }

  /** The status a meter reading shows, built from the remembered state. */
  function MeterText(kind: Kind, state: Option<string>, reading: string): string
  {
    var on := state == Some("on");
    match kind
    case Bulb => (if on then "Turned ON" else "Turned OFF") + " [" + reading + "W]"
    case BakPlug => (if on then "turned on" else "turned off") + " [" + reading + "]"
  }

  /** A promise the node awaits after the synchronous part of a handler. */
  datatype Pending =
    | SysInfoReply                          // sendDeviceSysInfo
    | InfoReply(op: Op)                     // cloud info, quick info, erase stats
    | MeterReply                            // sendDeviceMeterInfo
    | PowerThenInfo(op: Op)                 // setPowerState(..).then(sendDeviceSysInfo).catch(handleConnectionError)
    | JointThenInfo(ops: seq<Op>)           // Promise.all(..).then(sendDeviceSysInfo).catch(handleConnectionError)
    | LightReply(light: Light, thenInfo: bool) // a validator, optionally followed by sendDeviceSysInfo

  /** The reply of getSysInfo: the remembered state and the status follow
      the on/off flag, and the information is sent. */
  function SysInfoSettled(kind: Kind, b: Legacy, reply: Reply): Legacy
  {
    if !reply.ok then HandleConnectionError(kind, b, Some(Rejected(GetSysInfo)))
    else match OnOff(kind, reply.info)
      case None => HandleConnectionError(kind, b, Some(ErrorText("TypeError")))
      case Some(on) =>
        b.(state := Some(if on then "on" else "off"),
           status := if on then Status("green", "dot", "Turned ON") else Status("red", "dot", "Turned OFF"),
           sent := b.sent + [InfoOut(GetSysInfo)])
  }

  /** sendDeviceSysInfo called from a reply: the request, then its reply. */
  function SysInfoNow(kind: Kind, b: Legacy, reply: Reply): Legacy
  {
    if b.device.None? then b
    else SysInfoSettled(kind, b.(issued := b.issued + [Request(b.device.value, GetSysInfo)]), reply)
  }

  function Settle(kind: Kind, b: Legacy, q: Pending, reply: Reply): Legacy
  {
    match q
    case SysInfoReply => SysInfoSettled(kind, b, reply)
    case InfoReply(op) =>
      if reply.ok then b.(sent := b.sent + [InfoOut(op)]) else HandleConnectionError(kind, b, Some(Rejected(op)))
    case MeterReply =>
      if reply.ok then
        b.(status := Status("gray", "dot", MeterText(kind, b.state, reply.reading)),
           sent := b.sent + [InfoOut(GetMeterRealtime)])
      else HandleConnectionError(kind, b, Some(Rejected(GetMeterRealtime)))
    case PowerThenInfo(op) =>
      if reply.ok then SysInfoNow(kind, b, reply) else HandleConnectionError(kind, b, Some(Rejected(op)))
    case JointThenInfo(ops) =>
      // only the device requests among the joined promises can reject
      if !reply.ok && |ops| > 0 then HandleConnectionError(kind, b, Some(Rejected(ops[0])))
      else SysInfoNow(kind, b, reply)
    case LightReply(light, thenInfo) =>
      var b1 := LightSettled(b, light, reply);
      if thenInfo then SysInfoNow(kind, b1, reply) else b1
  }

  /** A light validator once its getSysInfo settles: the light state is
      requested, or the error is only logged (sendError does not
      disconnect). */
  function LightSettled(b: Legacy, light: Light, reply: Reply): Legacy
  {
    if !reply.ok then b.(errors := b.errors + [Rejected(GetSysInfo)])
    else match LightRequest(reply.info, light)
      case Issue(st) =>
        if b.device.None? then b else b.(issued := b.issued + [Request(b.device.value, SetLightState(st))])
      case Reject(e) => b.(errors := b.errors + [ErrorText(e)])
  }

  /** The awaited promises settle in the order they were created. */
  function SettleAll(kind: Kind, b: Legacy, qs: seq<Pending>, reply: Reply): Legacy
    decreases |qs|
  {
    if |qs| == 0 then b else Settle(kind, SettleAll(kind, b, qs[..|qs| - 1], reply), qs[|qs| - 1], reply)
  }

  /** A request to the device object, issued synchronously. */
  function Ask(b: Legacy, op: Op): Legacy
    requires b.device.Some?
  {
    b.(issued := b.issued + [Request(b.device.value, op)])
  }

  /** Requests to the device object, in order, issued synchronously. */
  function AskAll(b: Legacy, ops: seq<Op>): Legacy
    requires b.device.Some?
  {
    b.(issued := b.issued + Requests(b.device.value, ops))
  }

  /** The exact command strings both nodes share, with the request each
      makes and the replies it awaits; 'switch' toggles without reporting. */
  function Command(s: string): Option<(Op, seq<Pending>)>
  {
    if s == "getInfo" then Some((GetSysInfo, [SysInfoReply]))
    else if s == "getCloudInfo" then Some((GetCloudInfo, [InfoReply(GetCloudInfo)]))
    else if s == "getQuickInfo" then Some((GetInfo, [InfoReply(GetInfo)]))
    else if s == "switch" then Some((TogglePowerState, []))
    else if s == "getMeterInfo" then Some((GetMeterRealtime, [MeterReply]))
    else if s == "eraseStats" then Some((EraseStats, [InfoReply(EraseStats)]))
    else None
  }

  /** `state === 'toggle'` toggles; any other value goes to setPowerState. */
  function PowerOp(state: JsValue): Op
  {
    if state == Str("toggle") then TogglePowerState else SetPowerState(state)
  }

  /** The pieces of `s.split('|')`, as the strings the subscription filter
      compares. */
  function Words(s: string): (r: seq<JsValue>)
    ensures forall a :: Str(a) in r <==> a in Split(s, '|')
  {
    var ps := Split(s, '|');
    var r := seq(|ps|, i requires 0 <= i < |ps| => Str(ps[i]));
    assert forall a :: a in ps ==> Str(a) in r by {
      forall a | a in ps ensures Str(a) in r {
        var i :| 0 <= i < |ps| && ps[i] == a;
        assert r[i] == Str(a);
      }
    }
    r
  }

  // ---------------------------------------------------------------------------
  // Timers and events

  /** A tick of the event-polling timer, which fires only while the timer is
      set: without a device object polling stops; while connected the information and the meter reading are
      requested only when subscribed; otherwise the status turns 'Not
      reachable' and polling stops. */
  function PollTick(kind: Kind, b: Legacy, reply: Reply): Legacy
  {
    if !b.polling then b
    else if b.device.None? then b.(polling := false)
    else if b.connected then
      var info := CheckAction(b.action, "getInfoEvents");
      var meter := CheckAction(b.action, "getMeterEvents");
      var b1 := if info then Ask(b, GetSysInfo) else b;
      var b2 := if meter then Ask(b1, GetMeterRealtime) else b1;
      SettleAll(kind, b2, (if info then [SysInfoReply] else []) + (if meter then [MeterReply] else []), reply)
    else b.(status := Status("red", "ring", "Not reachable"), polling := false)
  }

  datatype DeviceEvent = PowerUpdate(on: bool) | InUse(inUse: bool) | Online(online: bool)

  function Gate(e: DeviceEvent): string
  {
    match e
    case PowerUpdate(_) => "getPowerUpdateEvents"
    case InUse(_) => "getInUseEvents"
    case Online(_) => "getOnlineEvents"
  }

  /** The bulb registers no in-use handler. */
  predicate Registered(kind: Kind, e: DeviceEvent)
  {
    !(kind == Bulb && e.InUse?)
  }

  /** A device event is sent only when its handler is registered and its
      subscription is enabled. */
  function EventStep(kind: Kind, b: Legacy, e: DeviceEvent): Legacy
  {
    if !Registered(kind, e) || !CheckAction(b.action, Gate(e)) then b
    else
      var out := match e case PowerUpdate(on) => PowerUpdateOut(on) case InUse(u) => InUseOut(u) case Online(o) => OnlineOut(o);
      b.(sent := b.sent + [out])
  }

  /** The close handler. */
  function Close(b: Legacy): Legacy
  {
    b.(connected := false, polling := false, pinging := false)
  }
}
