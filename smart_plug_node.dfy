/** The smart-plug node as the source keeps it: an object whose handlers
    update its fields in place. Each method is proved to perform the step
    function of SmartPlugs on the node's state, so the properties proved in
    SmartPlugProps hold of the node. */
module SmartPlugNodes {
  import opened JsValues
  import opened DeviceApi
  import opened KasaStatus
  import opened SmartPlugs
  import SmartPlugProps

  class SmartPlug {
    const deviceIP: string
    var action: seq<string>
    var instances: Option<seq<nat>>
    var connected: bool
    var status: Status
    var clients: nat
    var discovering: bool
    var polling: set<nat>
    var closed: set<nat>
    var nextRef: nat
    var issued: seq<Request>
    var sent: seq<PlugOut>
    var errors: seq<Failure>

    function Snapshot(): Plug
      reads this
    {
      Plug(deviceIP != "", action, instances, connected, status, clients, discovering, polling, closed, nextRef, issued, sent, errors)
    }

    ghost predicate Valid()
      reads this
    {
      SmartPlugs.Valid(Snapshot())
    }

    /** The node as deployed: with no address it only shows 'Not Configured'
        (and registers no handler); otherwise it starts connecting. */
    constructor(deviceIP: string)
      ensures this.deviceIP == deviceIP
      ensures Snapshot() == Initial(deviceIP) && Valid()
    {
      this.deviceIP := deviceIP;
      action := [];
      instances := Some([]);
      connected := false;
      status := Status("grey", "dot", "Initializing…");
      clients := 0;
      discovering := false;
      polling := {};
      closed := {};
      nextRef := 0;
      issued := [];
      sent := [];
      errors := [];
      new;
      if deviceIP == "" {
        status := Status("red", "ring", "Not Configured");
      } else {
        ConnectClient();
      }
      SmartPlugProps.InitialValid(deviceIP);
    }

    method ConnectClient()
      modifies this
      ensures Snapshot() == SmartPlugs.ConnectClient(old(Snapshot()))
    {
      clients := clients + 1;
      instances := Some([]);
      connected := true;
      status := Status("green", "dot", "Connected");
      discovering := true;
    }

    /** Stops polling and closes each device object of the array. */
    static method StopEach(polling0: set<nat>, closed0: set<nat>, xs: seq<nat>) returns (polling: set<nat>, closed: set<nat>)
      ensures polling == polling0 - Members(xs) && closed == closed0 + Members(xs)
    {
      polling, closed := polling0, closed0;
      var i := 0;
      while i < |xs|
        invariant 0 <= i <= |xs|
        invariant polling == polling0 - Members(xs[..i]) && closed == closed0 + Members(xs[..i])
      {
        assert Members(xs[..i + 1]) == Members(xs[..i]) + {xs[i]} by {
          assert xs[..i + 1] == xs[..i] + [xs[i]];
        }
        polling := polling - {xs[i]};
        closed := closed + {xs[i]};
        i := i + 1;
      }
      assert xs[..i] == xs;
    }

    method StopAll() returns (thrown: bool)
      modifies this
      ensures (Snapshot(), thrown) == SmartPlugs.StopAll(old(Snapshot()))
    {
      status := Status("red", "ring", "Disconnected");
      connected := false;
      if instances.None? {
        return true;
      }
      polling, closed := StopEach(polling, closed, instances.value);
      instances := None;
      discovering := false;
      thrown := false;
    }

    method HandleConnectionError(error: Option<Failure>) returns (thrown: bool)
      modifies this
      ensures (Snapshot(), thrown) == SmartPlugs.HandleConnectionError(old(Snapshot()), error)
    {
      if error.Some? {
        errors := errors + [error.value];
      }
      status := Status("red", "ring", "Error");
      connected := false;
      ghost var p1 := Snapshot();
      assert p1 == old(Snapshot()).(errors := old(errors) + (if error.Some? then [error.value] else []),
                                    status := Status("red", "ring", "Error"), connected := false);
      thrown := StopAll();
      if !thrown {
        ConnectClient();
      }
    }

    /** A new device object, polled for events. */
    method Monitor() returns (r: nat)
      modifies this
      ensures r == old(nextRef)
      ensures Snapshot() == old(Snapshot()).(nextRef := r + 1, polling := old(polling) + {r})
    {
      r := nextRef;
      nextRef := nextRef + 1;
      polling := polling + {r};
    }

    /** The outlets of a strip, `k` new device objects after `first`, in key
        order. */
    static method Outlets(first: nat, k: nat) returns (kids: seq<nat>)
      ensures kids == seq(k, j => first + 1 + j)
    {
      kids := [];
      var j := 0;
      while j < k
        invariant 0 <= j <= k
        invariant kids == seq(j, i => first + 1 + i)
      {
        kids := kids + [first + 1 + j];
        j := j + 1;
      }
    }

    /** The asynchronous part of connectClient once the device is found (or
        not). */
    method ConnectResolved(children: Option<nat>, ok: bool)
      requires Valid()
      modifies this
      ensures Snapshot() == SmartPlugs.ConnectResolved(old(Snapshot()), children, ok) && Valid()
    {
      SmartPlugProps.ConnectResolvedValid(Snapshot(), children, ok);
      if !ok {
        var _ := HandleConnectionError(None);
        return;
      }
      match children
      case Some(k) =>
        var parent := nextRef;
        var kids := Outlets(parent, k);
        polling := polling + Members(kids);
        nextRef := nextRef + 1 + k;
        instances := Some([parent] + kids);
      case None =>
        var parent := Monitor();
        if instances.None? {
          var _ := HandleConnectionError(None);
        } else {
          instances := Some([parent] + instances.value);
        }
    }

    /** sendInput(device, input). */
    method SendInput(device: Option<nat>, input: JsValue) returns (pending: seq<Pending>, thrown: bool)
      requires instances.Some?
      modifies this
      ensures (Snapshot(), pending, thrown) == SmartPlugs.SendInput(old(Snapshot()), device, input)
    {
      pending, thrown := [], false;
      match Classify(input)
      case SetPower(b) =>
        if device.None? { return [], true; }
        issued := issued + [Request(device.value, SetPowerState(Bool(b)))];
      case Toggle =>
        if device.None? { return [], true; }
        issued := issued + [Request(device.value, TogglePowerState)];
      case ParentQuery(op) =>
        var xs := instances.value;
        if |xs| == 0 { return [], true; }
        issued := issued + [Request(xs[0], op)];
        pending := [Reply(xs[0], op, false)];
      case DeviceQuery(op, withPlug) =>
        if device.None? { return [], true; }
        issued := issued + [Request(device.value, op)];
        pending := [Reply(device.value, op, withPlug)];
      case ClearEvents =>
        action := [];
      case Other(v) =>
        action := Enable(action, v);
    }

    /** `events.forEach(event => sendInput(device, event))`. */
    method SendEach(device: Option<nat>, events: seq<JsValue>) returns (pending: seq<Pending>, thrown: bool)
      requires instances.Some?
      modifies this
      ensures (Snapshot(), pending, thrown) == SendAll(old(Snapshot()), device, events)
    {
      ghost var p0 := Snapshot();
      pending, thrown := [], false;
      var i := 0;
      while i < |events|
        invariant 0 <= i <= |events|
        invariant (Snapshot(), pending, thrown) == SendAll(p0, device, events[..i])
        invariant instances.Some?
      {
        assert events[..i + 1][..i] == events[..i];
        if !thrown {
          var q, t := SendInput(device, events[i]);
          pending, thrown := pending + q, t;
        }
        i := i + 1;
      }
      assert events[..i] == events;
    }

    /** The synchronous part of an object input, before its events. */
    method ObjectInput(payload: JsValue) returns (pending: seq<Pending>, thrown: bool)
      requires instances.Some? && payload.Object?
      modifies this
      ensures (Snapshot(), pending, thrown) == SmartPlugs.ObjectInput(old(Snapshot()), payload)
    {
      var xs := instances.value;
      var m := payload.fields;
      if "brightness" in m || "led" in m {
        var ops := ObjectOps(payload);
        if |xs| == 0 {
          return [], true;
        }
        issued := issued + Requests(xs[0], ops);
        pending, thrown := [Joint(ops[0])], false;
      } else if "plug" in m {
        pending, thrown := SendInput(At(xs, m["plug"]), if "state" in m then m["state"] else Undefined);
      } else if "state" in m {
        pending, thrown := SendInput(First(xs), m["state"]);
      } else {
        pending, thrown := [], false;
      }
    }

    method Dispatch(payload: JsValue) returns (pending: seq<Pending>, thrown: bool)
      requires instances.Some?
      modifies this
      ensures (Snapshot(), pending, thrown) == SmartPlugs.Dispatch(old(Snapshot()), payload)
    {
      var xs := instances.value;
      match payload
      case Object(m) =>
        pending, thrown := ObjectInput(payload);
        SmartPlugProps.ObjectInputKeeps(old(Snapshot()), payload);
        if !thrown && "events" in m {
          if m["events"].Array? {
            var q, t := SendEach(First(xs), m["events"].items);
            pending, thrown := pending + q, t;
          } else {
            thrown := true;
          }
        }
      case Array(items) =>
        pending, thrown := SendEach(First(xs), items);
      case _ =>
        pending, thrown := SendInput(First(xs), payload);
    }

    method Settle(q: Pending, ok: bool)
      modifies this
      ensures Snapshot() == SmartPlugs.Settle(old(Snapshot()), q, ok)
    {
      match q
      case Joint(op) =>
        if !ok {
          var _ := HandleConnectionError(Some(Rejected(op)));
        }
      case Reply(ref, op, withPlug) =>
        if !ok {
          var _ := HandleConnectionError(Some(Rejected(op)));
        } else if !withPlug {
          sent := sent + [InfoOut(op, None)];
        } else if instances.None? {
          var _ := HandleConnectionError(Some(ErrorText("TypeError")));
        } else {
          sent := sent + [InfoOut(op, Some(FindIndex(instances.value, ref)))];
        }
    }

    /** The pending promises settle in the order they were created. */
    method SettleEach(qs: seq<Pending>, ok: bool)
      modifies this
      ensures Snapshot() == SettleAll(old(Snapshot()), qs, ok)
    {
      ghost var p0 := Snapshot();
      var i := 0;
      while i < |qs|
        invariant 0 <= i <= |qs|
        invariant Snapshot() == SettleAll(p0, qs[..i], ok)
      {
        assert qs[..i + 1][..i] == qs[..i];
        Settle(qs[i], ok);
        i := i + 1;
      }
      assert qs[..i] == qs;
    }

    /** The input handler. */
    method Input(payload: JsValue, ok: bool)
      requires Valid()
      modifies this
      ensures Snapshot() == SmartPlugs.Input(old(Snapshot()), payload, ok) && Valid()
    {
      SmartPlugProps.InputValid(Snapshot(), payload, ok);
      if deviceIP == "" {
        return;
      }
      if !connected {
        var _ := HandleConnectionError(Some(ErrorText("Not Reachable")));
        return;
      }
      var qs, _ := Dispatch(payload);
      SettleEach(qs, ok);
    }

    /** A native event of device object `ref`. */
    method DeviceEvent(ref: nat, e: SmartPlugs.DeviceEvent) returns (thrown: bool)
      modifies this
      ensures (Snapshot(), thrown) == DeviceEventStep(old(Snapshot()), ref, e)
    {
      thrown := false;
      if !CheckAction(Snapshot(), Gate(e)) {
        return;
      }
      if instances.None? {
        return true;
      }
      sent := sent + [EventOut(EventName(e), EventValue(e), FindIndex(instances.value, ref))];
    }

    /** The client's device-online / device-offline event. */
    method OnlineEvent(online: bool)
      modifies this
      ensures Snapshot() == OnlineEventStep(old(Snapshot()), deviceIP, online)
    {
      var event := if online then "device-online" else "device-offline";
      if "getOnlineEvents" in action {
        sent := sent + [OnlineOut(event, if online then "online" else "offline", deviceIP)];
      }
      status := if online then Status("green", "dot", "Online") else Status("red", "ring", "Offline");
    }

    /** The close handler. */
    method Close()
      modifies this
      ensures Snapshot() == SmartPlugs.Close(old(Snapshot()))
    {
      var _ := StopAll();
    }
  }
}
