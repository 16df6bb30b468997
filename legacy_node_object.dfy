/** The smart-bulb node and the older smart-plug node as the sources keep
    them: an object whose handlers update its fields and its context in
    place. Each method is proved to perform the step function of
    LegacyNodes, SmartBulbs or SmartPlugBaks on the node's state, so the
    properties proved in LegacyProps and LegacyInputProps hold of the
    node. */
module LegacyNodeObjects {
  import opened JsValues
  import opened DeviceApi
  import opened KasaStatus
  import opened ActionStrings
  import opened BulbLights
  import opened LegacyNodes
  import LegacyInputs
  import SmartPlugs
  import SmartBulbs
  import SmartPlugBaks
  import LegacyProps
  import LegacyInputProps

  class LegacyNode {
    const kind: Kind
    const deviceIP: string
    var action: Option<string>
    var state: Option<string>
    var connected: bool
    var device: Option<nat>
    var status: Status
    var clients: nat
    var polling: bool
    var pinging: bool
    var nextRef: nat
    var issued: seq<Request>
    var sent: seq<Out>
    var errors: seq<Failure>

    function Snapshot(): Legacy
      reads this
    {
      Legacy(deviceIP != "", action, state, connected, device, status, clients, polling, pinging, nextRef, issued, sent, errors)
    }

    ghost predicate Valid()
      reads this
    {
      LegacyNodes.Valid(Snapshot())
    }

    /** The node as deployed: with no address it only shows 'Not
        configured'; otherwise it connects and starts the is-alive timer. */
    constructor(kind: Kind, deviceIP: string)
      ensures this.kind == kind && this.deviceIP == deviceIP
      ensures Snapshot() == Initial(deviceIP) && Valid()
    {
      this.kind := kind;
      this.deviceIP := deviceIP;
      action, state := None, None;
      connected, device := false, None;
      status := Status("grey", "dot", "Initializing…");
      clients := 0;
      polling, pinging := false, false;
      nextRef := 0;
      issued, sent, errors := [], [], [];
      new;
      if deviceIP == "" {
        status := Status("red", "ring", "Not configured");
        return;
      }
      ConnectClient();
      pinging := true;
    }

    method ConnectClient()
      modifies this
      ensures Snapshot() == LegacyNodes.ConnectClient(old(Snapshot()))
    {
      clients := clients + 1;
    }

    method HandleConnectionError(error: Option<Failure>)
      modifies this
      ensures Snapshot() == LegacyNodes.HandleConnectionError(kind, old(Snapshot()), error)
    {
      if error.Some? {
        errors := errors + [error.value];
      }
      status := Status("red", "ring", UnreachableText(kind));
      connected := false;
    }

    /** getDevice settles. */
    method ConnectResolved(ok: bool)
      requires Valid()
      modifies this
      ensures Snapshot() == LegacyNodes.ConnectResolved(kind, old(Snapshot()), ok) && Valid()
    {
      if !ok {
        HandleConnectionError(None);
        return;
      }
      connected := true;
      device := Some(nextRef);
      nextRef := nextRef + 1;
      status := Status("yellow", "dot", "Connected");
      polling := true;
    }

    /** A tick of the is-alive timer. */
    method IsAliveTick(ok: bool)
      requires Valid()
      modifies this
      ensures Snapshot() == LegacyNodes.IsAliveTick(kind, old(Snapshot()), ok) && Valid()
    {
      LegacyProps.IsAliveReconnects(kind, Snapshot(), ok);
      if !pinging {
        return;
      }
      if connected {
        Ask(GetInfo);
        if !ok {
          HandleConnectionError(None);
        }
      } else {
        ConnectClient();
      }
    }

    /** A request to the device object. */
    method Ask(op: Op)
      requires device.Some?
      modifies this
      ensures Snapshot() == LegacyNodes.Ask(old(Snapshot()), op)
    {
      issued := issued + [Request(device.value, op)];
    }

    /** Requests to the device object, one after the other. */
    method AskAll(ops: seq<Op>)
      requires device.Some?
      modifies this
      ensures Snapshot() == LegacyNodes.AskAll(old(Snapshot()), ops)
    {
      var i := 0;
      while i < |ops|
        invariant 0 <= i <= |ops|
        invariant device == old(device)
        invariant Snapshot() == old(Snapshot()).(issued := old(issued) + Requests(device.value, ops[..i]))
      {
        assert Requests(device.value, ops[..i + 1]) == Requests(device.value, ops[..i]) + [Request(device.value, ops[i])];
        Ask(ops[i]);
        i := i + 1;
      }
      assert ops[..i] == ops;
    }

    // -------------------------------------------------------------------------
    // Replies

    method SysInfoSettled(reply: Reply)
      modifies this
      ensures Snapshot() == LegacyNodes.SysInfoSettled(kind, old(Snapshot()), reply)
    {
      if !reply.ok {
        HandleConnectionError(Some(Rejected(GetSysInfo)));
        return;
      }
      match OnOff(kind, reply.info)
      case None =>
        HandleConnectionError(Some(ErrorText("TypeError")));
      case Some(on) =>
        state := Some(if on then "on" else "off");
        status := if on then Status("green", "dot", "Turned ON") else Status("red", "dot", "Turned OFF");
        sent := sent + [InfoOut(GetSysInfo)];
    }

    /** sendDeviceSysInfo from a reply. */
    method SysInfoNow(reply: Reply)
      modifies this
      ensures Snapshot() == LegacyNodes.SysInfoNow(kind, old(Snapshot()), reply)
    {
      if device.None? {
        return;
      }
      Ask(GetSysInfo);
      SysInfoSettled(reply);
    }

    method LightSettled(light: Light, reply: Reply)
      modifies this
      ensures Snapshot() == LegacyNodes.LightSettled(old(Snapshot()), light, reply)
    {
      if !reply.ok {
        errors := errors + [Rejected(GetSysInfo)];
        return;
      }
      match LightRequest(reply.info, light)
      case Issue(st) =>
        if device.Some? {
          Ask(SetLightState(st));
        }
      case Reject(e) =>
        errors := errors + [ErrorText(e)];
    }

    method Settle(q: Pending, reply: Reply)
      modifies this
      ensures Snapshot() == LegacyNodes.Settle(kind, old(Snapshot()), q, reply)
    {
      match q
      case SysInfoReply =>
        SysInfoSettled(reply);
      case InfoReply(op) =>
        if reply.ok {
          sent := sent + [InfoOut(op)];
        } else {
          HandleConnectionError(Some(Rejected(op)));
        }
      case MeterReply =>
        if reply.ok {
          status := Status("gray", "dot", MeterText(kind, state, reply.reading));
          sent := sent + [InfoOut(GetMeterRealtime)];
        } else {
          HandleConnectionError(Some(Rejected(GetMeterRealtime)));
        }
      case PowerThenInfo(op) =>
        if reply.ok {
          SysInfoNow(reply);
        } else {
          HandleConnectionError(Some(Rejected(op)));
        }
      case JointThenInfo(ops) =>
        if !reply.ok && |ops| > 0 {
          HandleConnectionError(Some(Rejected(ops[0])));
        } else {
          SysInfoNow(reply);
        }
      case LightReply(light, thenInfo) =>
        LightSettled(light, reply);
        if thenInfo {
          SysInfoNow(reply);
        }
    }

    /** The awaited promises settle in the order they were created. */
    method SettleEach(qs: seq<Pending>, reply: Reply)
      modifies this
      ensures Snapshot() == SettleAll(kind, old(Snapshot()), qs, reply)
    {
      ghost var b0 := Snapshot();
      var i := 0;
      while i < |qs|
        invariant 0 <= i <= |qs|
        invariant Snapshot() == SettleAll(kind, b0, qs[..i], reply)
      {
        assert qs[..i + 1][..i] == qs[..i];
        Settle(qs[i], reply);
        i := i + 1;
      }
      assert qs[..i] == qs;
    }

    // -------------------------------------------------------------------------
    // Input

    /** The events list of an object input replaces the subscriptions. */
    method SetEvents(k: Kind, events: JsValue) returns (thrown: bool)
      modifies this
      ensures events.Array? ==> Snapshot() == old(Snapshot()).(action := Some(Subscribe(k, events.items))) && !thrown
      ensures !events.Array? ==> Snapshot() == old(Snapshot()) && thrown
    {
      if !events.Array? {
        return true;
      }
      action := Some(Subscribe(k, events.items));
      thrown := false;
    }

    method BulbObject(m: map<string, JsValue>) returns (qs: seq<Pending>, thrown: bool)
      requires device.Some?
      modifies this
      ensures (Snapshot(), qs, thrown) == SmartBulbs.ObjectInput(old(Snapshot()), m)
    {
      var power := if "state" in m then [PowerOp(m["state"])] else [];
      var lights := SmartBulbs.Lights(m);
      AskAll(power + SmartBulbs.LightOps(lights));
      qs := SmartBulbs.LightReplies(lights, false) + [JointThenInfo(power)];
      thrown := false;
      if "events" in m {
        thrown := SetEvents(Bulb, m["events"]);
      }
    }

    method BakObject(m: map<string, JsValue>) returns (qs: seq<Pending>, thrown: bool)
      requires device.Some?
      modifies this
      ensures (Snapshot(), qs, thrown) == SmartPlugBaks.ObjectInput(old(Snapshot()), m)
    {
      var ops := SmartPlugBaks.ObjectOps(m);
      AskAll(ops);
      qs := [JointThenInfo(ops)];
      thrown := false;
      if "events" in m {
        thrown := SetEvents(BakPlug, m["events"]);
      }
    }

    /** A shared command string. */
    method Command(s: string) returns (qs: seq<Pending>)
      requires device.Some? && LegacyNodes.Command(s).Some?
      modifies this
      ensures Snapshot() == LegacyNodes.Ask(old(Snapshot()), LegacyNodes.Command(s).value.0)
      ensures qs == LegacyNodes.Command(s).value.1
    {
      var (op, replies) := LegacyNodes.Command(s).value;
      Ask(op);
      qs := replies;
    }

    method BulbString(s: string) returns (qs: seq<Pending>)
      requires device.Some?
      modifies this
      ensures (Snapshot(), qs) == SmartBulbs.StringInput(old(Snapshot()), s)
    {
      if Strings.Contains(s, "brightness") {
        Ask(GetSysInfo);
        qs := [LightReply(Brightness(SmartBulbs.AfterColon(s)), true)];
      } else if Strings.Contains(s, "temperature") {
        Ask(GetSysInfo);
        qs := [LightReply(Temperature(SmartBulbs.AfterColon(s)), true)];
      } else if LegacyNodes.Command(s).Some? {
        qs := Command(s);
      } else if s == "clearEvents" {
        action := Some(s);
        qs := [];
      } else {
        action := Some(Subscribe(Bulb, Words(s)));
        qs := [];
      }
    }

    method BulbDispatch(payload: JsValue) returns (qs: seq<Pending>, thrown: bool)
      requires device.Some?
      modifies this
      ensures (Snapshot(), qs, thrown) == SmartBulbs.Dispatch(old(Snapshot()), payload)
    {
      if IsPlainObject(payload) {
        qs, thrown := BulbObject(payload.fields);
      } else if LooseEqualsBool(payload, true) || LooseEqualsBool(payload, false) {
        Ask(SetPowerState(payload));
        qs, thrown := [PowerThenInfo(SetPowerState(payload))], false;
      } else if payload.Str? {
        qs := BulbString(payload.s);
        thrown := false;
      } else {
        qs, thrown := [], true;
      }
    }

    method BakDispatch(payload: JsValue) returns (qs: seq<Pending>, thrown: bool)
      requires device.Some?
      modifies this
      ensures (Snapshot(), qs, thrown) == SmartPlugBaks.Dispatch(old(Snapshot()), payload)
    {
      if IsPlainObject(payload) {
        qs, thrown := BakObject(payload.fields);
        return;
      }
      var v := SmartPlugs.Normalise(payload);
      thrown := false;
      if v.Bool? {
        Ask(SetPowerState(v));
        qs := [PowerThenInfo(SetPowerState(v))];
      } else if v.Str? && LegacyNodes.Command(v.s).Some? {
        qs := Command(v.s);
      } else if v == Str("clearEvents") {
        action := Some("clearEvents");
        qs := [];
      } else if v.Str? {
        action := Some(Subscribe(BakPlug, Words(v.s)));
        qs := [];
      } else {
        qs, thrown := [], true;
      }
    }

    /** The input handler. */
    method Input(payload: JsValue, reply: Reply)
      requires Valid()
      modifies this
      ensures Snapshot() == LegacyInputs.Input(kind, old(Snapshot()), payload, reply) && Valid()
    {
      LegacyInputProps.InputValid(kind, Snapshot(), payload, reply);
      if deviceIP == "" {
        return;
      }
      if !connected {
        HandleConnectionError(Some(ErrorText(InputUnreachableText(kind))));
        return;
      }
      var qs, thrown;
      if kind == Bulb {
        qs, thrown := BulbDispatch(payload);
      } else {
        qs, thrown := BakDispatch(payload);
      }
      SettleEach(qs, reply);
    }

    // -------------------------------------------------------------------------
    // Timers and events

    /** A tick of the event-polling timer. */
    method PollTick(reply: Reply)
      requires Valid()
      modifies this
      ensures Snapshot() == LegacyNodes.PollTick(kind, old(Snapshot()), reply) && Valid()
    {
      LegacyProps.PollTickRequests(kind, Snapshot(), reply);
      if !polling {
        return;
      }
      if device.None? {
        polling := false;
        return;
      }
      if !connected {
        status := Status("red", "ring", "Not reachable");
        polling := false;
        return;
      }
      var info := CheckAction(action, "getInfoEvents");
      var meter := CheckAction(action, "getMeterEvents");
      if info {
        Ask(GetSysInfo);
      }
      if meter {
        Ask(GetMeterRealtime);
      }
      SettleEach((if info then [SysInfoReply] else []) + (if meter then [MeterReply] else []), reply);
    }

    /** A device event. */
    method Event(e: DeviceEvent)
      modifies this
      ensures Snapshot() == EventStep(kind, old(Snapshot()), e)
    {
      if !Registered(kind, e) || !CheckAction(action, Gate(e)) {
        return;
      }
      var out := match e case PowerUpdate(on) => PowerUpdateOut(on) case InUse(u) => InUseOut(u) case Online(o) => OnlineOut(o);
      sent := sent + [out];
    }

    /** The close handler. */
    method Close()
      modifies this
      ensures Snapshot() == LegacyNodes.Close(old(Snapshot()))
    {
      connected := false;
      polling := false;
      pinging := false;
    }
  }
}
