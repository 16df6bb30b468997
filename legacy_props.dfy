/** What the smart-bulb node and the older smart-plug node guarantee, stated
    about the step functions of LegacyNodes, SmartBulbs and SmartPlugBaks. */
module LegacyProps {
  import opened Strings
  import opened JsValues
  import opened DeviceApi
  import opened KasaStatus
  import opened ActionStrings
  import opened BulbLights
  import opened LegacyNodes
  import SmartPlugs
  import SmartBulbs
  import SmartPlugBaks

  // ---------------------------------------------------------------------------
  // Connection and timers

  /** Without an address the node stays unconfigured and starts nothing;
      otherwise one client is created and the is-alive timer runs. */
  lemma InitialState(deviceIP: string)
    ensures Valid(Initial(deviceIP)) && !Initial(deviceIP).connected && Initial(deviceIP).device.None?
    ensures Initial(deviceIP).configured <==> deviceIP != ""
    ensures deviceIP == "" ==>
      (Initial(deviceIP).clients == 0 && !Initial(deviceIP).pinging
       && Initial(deviceIP).status == Status("red", "ring", "Not configured"))
    ensures deviceIP != "" ==> Initial(deviceIP).clients == 1 && Initial(deviceIP).pinging
  {
  }

  /** A successful connect installs a fresh device object and starts event
      polling; a failed one only marks the node unreachable. */
  lemma ConnectResolvedState(kind: Kind, b: Legacy, ok: bool)
    requires Valid(b)
    ensures var b1 := ConnectResolved(kind, b, ok);
      && Valid(b1) && b1.issued == b.issued
      && (ok ==> b1.connected && b1.polling && b1.device.Some? && b1.device != b.device)
      && (!ok ==> !b1.connected && b1.device == b.device && b1.status == Status("red", "ring", UnreachableText(kind)))
  {
  }

  /** The is-alive timer fires only while it is set (never on a node
      without an address, never after close). It reconnects exactly when the
      node is disconnected; while connected it pings the current device
      object and a failed ping disconnects. */
  lemma IsAliveReconnects(kind: Kind, b: Legacy, ok: bool)
    requires Valid(b)
    ensures var b1 := IsAliveTick(kind, b, ok);
      && Valid(b1)
      && (!b.pinging ==> b1 == b)
      && (b1.clients == b.clients + 1 <==> b.pinging && !b.connected)
      && (b.pinging && b.connected ==> b1.issued == b.issued + [Request(b.device.value, GetInfo)] && (b1.connected <==> ok))
      && (b.pinging && !b.connected ==> b1.issued == b.issued && !b1.connected)
  {
  }

  /** The polling timer fires only while it is set. A poll tick while
      connected requests the system information exactly when getInfoEvents
      is enabled and the meter reading exactly when getMeterEvents is, in
      that order, and keeps polling; without a device object, or while
      disconnected, it requests nothing and stops polling. */
  lemma PollTickRequests(kind: Kind, b: Legacy, reply: Reply)
    requires Valid(b)
    ensures var b1 := PollTick(kind, b, reply);
      && Valid(b1) && b1.action == b.action
      && (!b.polling ==> b1 == b)
      && (b.polling && b.connected ==>
            var d := b.device.value;
            && b1.polling == b.polling
            && b1.issued == b.issued
               + (if CheckAction(b.action, "getInfoEvents") then [Request(d, GetSysInfo)] else [])
               + (if CheckAction(b.action, "getMeterEvents") then [Request(d, GetMeterRealtime)] else []))
      && (b.polling && !b.connected ==> b1.issued == b.issued && !b1.polling)
  {
    if b.polling && b.device.Some? && b.connected {
      PollConnected(kind, b, reply);
    }
  }

  lemma PollConnected(kind: Kind, b: Legacy, reply: Reply)
    requires Valid(b) && b.polling && b.connected
    ensures var info := CheckAction(b.action, "getInfoEvents");
      var meter := CheckAction(b.action, "getMeterEvents");
      var b2 := AskAll(b, (if info then [GetSysInfo] else []) + (if meter then [GetMeterRealtime] else []));
      var qs := (if info then [SysInfoReply] else []) + (if meter then [MeterReply] else []);
      && PollTick(kind, b, reply) == SettleAll(kind, b2, qs, reply)
      && Keeps(b2, PollTick(kind, b, reply)) && PollTick(kind, b, reply).issued == b2.issued
  {
    var info := CheckAction(b.action, "getInfoEvents");
    var meter := CheckAction(b.action, "getMeterEvents");
    var ops := (if info then [GetSysInfo] else []) + (if meter then [GetMeterRealtime] else []);
    var qs := (if info then [SysInfoReply] else []) + (if meter then [MeterReply] else []);
    var b1 := if info then Ask(b, GetSysInfo) else b;
    var b2 := if meter then Ask(b1, GetMeterRealtime) else b1;
    assert b2 == AskAll(b, ops);
    SettleAllKeeps(kind, b2, qs, reply);
  }

  // ---------------------------------------------------------------------------
  // Replies

  /** What settling replies never changes: the invariant, the subscriptions,
      the device object, the client count and the timers; the request log
      only grows. */
  ghost predicate Keeps(b: Legacy, b1: Legacy)
  {
    && Valid(b1) && b1.action == b.action && b1.device == b.device && b1.nextRef == b.nextRef
    && b1.clients == b.clients && b1.polling == b.polling && b1.pinging == b.pinging
    && b.issued <= b1.issued
  }

  lemma KeepsTrans(b: Legacy, b1: Legacy, b2: Legacy)
    requires Keeps(b, b1) && Keeps(b1, b2)
    ensures Keeps(b, b2)
  {
  }

  lemma SysInfoSettledKeeps(kind: Kind, b: Legacy, reply: Reply)
    requires Valid(b)
    ensures var b1 := SysInfoSettled(kind, b, reply);
      Keeps(b, b1) && b1.issued == b.issued
  {
  }

  lemma SysInfoNowKeeps(kind: Kind, b: Legacy, reply: Reply)
    requires Valid(b)
    ensures Keeps(b, SysInfoNow(kind, b, reply))
  {
    if b.device.Some? {
      var b1 := b.(issued := b.issued + [Request(b.device.value, GetSysInfo)]);
      assert Keeps(b, b1);
      SysInfoSettledKeeps(kind, b1, reply);
      KeepsTrans(b, b1, SysInfoSettled(kind, b1, reply));
    }
  }

  lemma LightSettledKeeps(b: Legacy, light: Light, reply: Reply)
    requires Valid(b)
    ensures Keeps(b, LightSettled(b, light, reply))
  {
  }

  lemma SettleKeeps(kind: Kind, b: Legacy, q: Pending, reply: Reply)
    requires Valid(b)
    ensures Keeps(b, Settle(kind, b, q, reply))
    ensures (q.SysInfoReply? || q.InfoReply? || q.MeterReply?) ==> Settle(kind, b, q, reply).issued == b.issued
  {
    match q
    case PowerThenInfo(_) => SysInfoNowKeeps(kind, b, reply);
    case JointThenInfo(_) => SysInfoNowKeeps(kind, b, reply);
    case LightReply(light, thenInfo) =>
      LightSettledKeeps(b, light, reply);
      var b1 := LightSettled(b, light, reply);
      if thenInfo {
        SysInfoNowKeeps(kind, b1, reply);
        KeepsTrans(b, b1, SysInfoNow(kind, b1, reply));
      }
    case _ =>
  }

  lemma {:induction false} SettleAllKeeps(kind: Kind, b: Legacy, qs: seq<Pending>, reply: Reply)
    requires Valid(b)
    ensures Keeps(b, SettleAll(kind, b, qs, reply))
    ensures (forall i :: 0 <= i < |qs| ==> qs[i].SysInfoReply? || qs[i].InfoReply? || qs[i].MeterReply?) ==>
      SettleAll(kind, b, qs, reply).issued == b.issued
    decreases |qs|
  {
    if |qs| > 0 {
      var front := qs[..|qs| - 1];
      SettleAllKeeps(kind, b, front, reply);
      var b0 := SettleAll(kind, b, front, reply);
      SettleKeeps(kind, b0, qs[|qs| - 1], reply);
      KeepsTrans(b, b0, SettleAll(kind, b, qs, reply));
    }
  }

  /** After a successful getSysInfo reply the remembered state follows the
      device's on/off flag, and a meter reading that settles next shows that
      state in its status. */
  lemma MeterShowsLastState(kind: Kind, b: Legacy, r1: Reply, r2: Reply, on: bool)
    requires r1.ok && r2.ok && OnOff(kind, r1.info) == Some(on)
    ensures var b1 := Settle(kind, b, SysInfoReply, r1);
      var b2 := Settle(kind, b1, MeterReply, r2);
      && b1.state == Some(if on then "on" else "off")
      && b1.status == (if on then Status("green", "dot", "Turned ON") else Status("red", "dot", "Turned OFF"))
      && b2.status.fill == "gray"
      && StartsWith(b2.status.text,
           match kind
           case Bulb => if on then "Turned ON [" else "Turned OFF ["
           case BakPlug => if on then "turned on [" else "turned off [")
  {
    var b1 := Settle(kind, b, SysInfoReply, r1);
    var t := Settle(kind, b1, MeterReply, r2).status.text;
    var head := match kind
      case Bulb => if on then "Turned ON [" else "Turned OFF ["
      case BakPlug => if on then "turned on [" else "turned off [";
    assert t[..|head|] == head;
  }

  /** The bulb reads its on/off flag inside light_state: system information
      without it throws and disconnects the node. The plug reads relay_state
      at top level, so an object reply never disconnects it. */
  lemma SysInfoShape(b: Legacy, info: JsValue, reading: string)
    requires info.Object?
    ensures "light_state" !in info.fields ==>
      var b1 := Settle(Bulb, b, SysInfoReply, Reply(true, info, reading));
      !b1.connected && b1.errors == b.errors + [ErrorText("TypeError")] && b1.sent == b.sent
    ensures var b1 := Settle(BakPlug, b, SysInfoReply, Reply(true, info, reading));
      && b1.connected == b.connected && b1.sent == b.sent + [InfoOut(GetSysInfo)]
      && (b1.state == Some("on") <==> "relay_state" in info.fields && info.fields["relay_state"] == Num(1))
  {
  }

  /** A device event is sent exactly when the node registered its handler
      and its subscription is enabled; nothing else changes. */
  lemma EventGated(kind: Kind, b: Legacy, e: DeviceEvent)
    ensures var b1 := EventStep(kind, b, e);
      && (b1 != b <==> Registered(kind, e) && CheckAction(b.action, Gate(e)))
      && b1 == b.(sent := b1.sent)
      && |b1.sent| <= |b.sent| + 1
  {
  }

  /** The bulb never reports in-use events; the plug reports them only when
      subscribed. */
  lemma InUseOnlyForPlug(b: Legacy, inUse: bool)
    ensures EventStep(Bulb, b, InUse(inUse)) == b
    ensures EventStep(BakPlug, b, InUse(inUse)) != b <==> CheckAction(b.action, "getInUseEvents")
  {
  }

  /** Close stops both timers and marks the node disconnected. */
  lemma CloseStops(b: Legacy)
    requires Valid(b)
    ensures var b1 := Close(b);
      Valid(b1) && !b1.connected && !b1.polling && !b1.pinging && b1.issued == b.issued
  {
  }
}
