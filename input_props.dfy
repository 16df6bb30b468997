/** What the input handlers of the smart-bulb node and the older smart-plug
    node guarantee: the reply to an input while disconnected, the
    subscriptions an input sets, the commands each node recognises, and the
    invariant. */
module LegacyInputProps {
  import opened Strings
  import opened JsValues
  import opened DeviceApi
  import opened KasaStatus
  import opened ActionStrings
  import opened BulbLights
  import opened LegacyNodes
  import opened LegacyInputs
  import LegacyProps
  import SmartPlugs
  import SmartBulbs
  import SmartPlugBaks
  import BulbCommands

  /** While connected, an input is its synchronous requests followed by the
      settling of the promises they created, in order. */
  lemma ConnectedInput(kind: Kind, b: Legacy, payload: JsValue, reply: Reply)
    requires Valid(b) && b.configured && b.connected
    ensures var (b1, qs, _) := Dispatch(kind, b, payload);
      Input(kind, b, payload, reply) == SettleAll(kind, b1, qs, reply)
  {
  }

  /** A node without an address has no input handler: an input changes
      nothing. A configured node's input while disconnected requests nothing
      and does not reconnect (the is-alive timer does): it logs 'Not
      reachable' (the bulb) or 'not reachable' (the plug) and shows the
      node's unreachable status. */
  lemma DisconnectedInput(kind: Kind, b: Legacy, payload: JsValue, reply: Reply)
    requires Valid(b) && !b.connected
    ensures var b1 := Input(kind, b, payload, reply);
      && (!b.configured ==> b1 == b)
      && (b.configured ==>
            && b1.issued == b.issued && b1.sent == b.sent && b1.action == b.action
            && b1.clients == b.clients && !b1.connected
            && b1.errors == b.errors + [ErrorText(InputUnreachableText(kind))]
            && b1.status == Status("red", "ring", UnreachableText(kind)))
      && InputUnreachableText(kind) != UnreachableText(kind)
  {
  }

  /** The synchronous part of an input changes only the request log, which
      it extends, and the subscriptions. */
  lemma DispatchKeeps(kind: Kind, b: Legacy, payload: JsValue)
    requires b.device.Some?
    ensures var b1 := Dispatch(kind, b, payload).0;
      b1 == b.(issued := b1.issued, action := b1.action) && b.issued <= b1.issued
  {
    match kind
    case Bulb =>
      if IsPlainObject(payload) {
        BulbObjectKeeps(b, payload.fields);
      } else if payload.Str? {
        BulbStringKeeps(b, payload.s);
      }
    case BakPlug =>
      if IsPlainObject(payload) {
        BakObjectKeeps(b, payload.fields);
      } else {
        BakScalarKeeps(b, payload);
      }
  }

  lemma BulbObjectKeeps(b: Legacy, m: map<string, JsValue>)
    requires b.device.Some?
    ensures var b1 := SmartBulbs.ObjectInput(b, m).0;
      b1 == b.(issued := b1.issued, action := b1.action) && b.issued <= b1.issued
  {
  }

  lemma BulbStringKeeps(b: Legacy, s: string)
    requires b.device.Some?
    ensures var b1 := SmartBulbs.StringInput(b, s).0;
      b1 == b.(issued := b1.issued, action := b1.action) && b.issued <= b1.issued
  {
    var b1 := SmartBulbs.StringInput(b, s).0;
    if b1 != b.(action := b1.action) {
      assert b1.issued == b.issued + [Request(b.device.value, b1.issued[|b.issued|].op)];
    }
  }

  lemma BakObjectKeeps(b: Legacy, m: map<string, JsValue>)
    requires b.device.Some?
    ensures var b1 := SmartPlugBaks.ObjectInput(b, m).0;
      b1 == b.(issued := b1.issued, action := b1.action) && b.issued <= b1.issued
  {
  }

  lemma BakScalarKeeps(b: Legacy, v: JsValue)
    requires b.device.Some? && !IsPlainObject(v)
    ensures var b1 := SmartPlugBaks.Dispatch(b, v).0;
      b1 == b.(issued := b1.issued, action := b1.action) && b.issued <= b1.issued
  {
  }

  /** Every input keeps the invariant, the device object and the client
      count. */
  lemma InputValid(kind: Kind, b: Legacy, payload: JsValue, reply: Reply)
    requires Valid(b)
    ensures var b1 := Input(kind, b, payload, reply);
      Valid(b1) && b1.device == b.device && b1.clients == b.clients
  {
    if b.configured && b.connected {
      DispatchKeeps(kind, b, payload);
      var (b1, qs, _) := Dispatch(kind, b, payload);
      LegacyProps.SettleAllKeeps(kind, b1, qs, reply);
    }
  }

  /** The subscriptions after an input are those its synchronous part set:
      no reply changes them. */
  lemma InputAction(kind: Kind, b: Legacy, payload: JsValue, reply: Reply)
    requires Valid(b) && b.configured && b.connected
    ensures Input(kind, b, payload, reply).action == Dispatch(kind, b, payload).0.action
  {
    DispatchKeeps(kind, b, payload);
    var (b1, qs, _) := Dispatch(kind, b, payload);
    LegacyProps.SettleAllKeeps(kind, b1, qs, reply);
  }

  // ---------------------------------------------------------------------------
  // Subscriptions

  /** The `events` array of an object input replaces the subscriptions: each
      known subscription is enabled exactly when the array holds its name. A
      value that is not an array throws, after the requests were made. */
  lemma ObjectEvents(kind: Kind, b: Legacy, m: map<string, JsValue>, a: string)
    requires b.device.Some? && "events" in m && a in EventActions(kind)
    ensures var (b1, _, thrown) := Dispatch(kind, b, Object(m));
      && (m["events"].Array? ==>
            !thrown && b1.action.Some? && (CheckAction(b1.action, a) <==> Str(a) in m["events"].items))
      && (!m["events"].Array? ==> thrown && b1.action == b.action)
  {
    if m["events"].Array? {
      SubscribeEnables(kind, m["events"].items, a);
    }
  }

  /** A string that is no command of the bulb is a `|`-separated list of
      subscriptions: each known subscription is enabled exactly when it is
      one of the pieces, and nothing is requested. */
  lemma BulbStringEvents(b: Legacy, s: string, a: string)
    requires b.device.Some? && a in EventActions(Bulb)
    requires !LooseEqualsBool(Str(s), true) && !LooseEqualsBool(Str(s), false)
    requires !Contains(s, "brightness") && !Contains(s, "temperature")
    requires Command(s).None? && s != "clearEvents"
    ensures var (b1, qs, thrown) := Dispatch(Bulb, b, Str(s));
      && !thrown && qs == [] && b1.issued == b.issued
      && (CheckAction(b1.action, a) <==> a in Split(s, '|'))
  {
    SubscribeEnables(Bulb, Words(s), a);
  }

  /** The same for the plug, whose power words are recognised first. */
  lemma BakStringEvents(b: Legacy, s: string, a: string)
    requires b.device.Some? && a in EventActions(BakPlug)
    requires SmartPlugs.Normalise(Str(s)) == Str(s)
    requires Command(s).None? && s != "clearEvents"
    ensures var (b1, qs, thrown) := Dispatch(BakPlug, b, Str(s));
      && !thrown && qs == [] && b1.issued == b.issued
      && (CheckAction(b1.action, a) <==> a in Split(s, '|'))
  {
    SubscribeEnables(BakPlug, Words(s), a);
  }

  /** 'clearEvents' is stored as it is, which enables no subscription, and
      requests nothing. */
  lemma ClearEvents(kind: Kind, b: Legacy, reply: Reply, a: string)
    requires Valid(b) && b.configured && b.connected && a in EventActions(kind)
    ensures var b1 := Input(kind, b, Str("clearEvents"), reply);
      b1.action == Some("clearEvents") && !CheckAction(b1.action, a) && b1.issued == b.issued
  {
    EventActionsShape(kind);
    var j :| 0 <= j < |EventActions(kind)| && EventActions(kind)[j] == a;
    ClearEventsEnablesNothing(a);
    match kind
    case Bulb => BulbCommands.BulbClearEvents(b, Str("clearEvents"));
    case BakPlug => BakClearEvents(b);
  }

  lemma BakClearEvents(b: Legacy)
    requires b.device.Some?
    ensures SmartPlugBaks.Dispatch(b, Str("clearEvents")) == (b.(action := Some("clearEvents")), [], false)
  {
    assert |Upper("clearEvents")| == 11;
  }

  // ---------------------------------------------------------------------------
  // Commands

  /** The whole brightness command: on a dimmable bulb a value in [1, 100]
      is requested between two information requests, and the state is
      reported; a value above 100 is only reported as an error and the node
      stays connected. */
  lemma BulbBrightnessEffect(b: Legacy, w: string, n: nat, payload: JsValue, reply: Reply)
    requires Valid(b) && b.configured && b.connected && reply.ok && w == "brightness" && payload == Str(w + ":" + NatToString(n))
    requires Flag(reply.info, "is_dimmable") == Some(Num(1)) && OnOff(Bulb, reply.info).Some?
    ensures var b1 := Input(Bulb, b, payload, reply);
      var d := b.device.value;
      && b1.connected
      && (1 <= n <= 100 ==>
            b1.issued == b.issued + [Request(d, GetSysInfo), Request(d, SetLightState(map["brightness" := Num(n)])), Request(d, GetSysInfo)]
            && b1.errors == b.errors)
      && (n > 100 ==>
            b1.issued == b.issued + [Request(d, GetSysInfo), Request(d, GetSysInfo)]
            && b1.errors == b.errors + [ErrorText("Brightness Should be between 1 and 100.")])
  {
    BrightnessInput(b, w, n, payload, reply);
    BrightnessSettled(b, n, reply);
  }

  lemma BrightnessInput(b: Legacy, w: string, n: nat, payload: JsValue, reply: Reply)
    requires Valid(b) && b.configured && b.connected && w == "brightness" && payload == Str(w + ":" + NatToString(n))
    ensures Input(Bulb, b, payload, reply) == Settle(Bulb, Ask(b, GetSysInfo), LightReply(Brightness(Num(n)), true), reply)
  {
    BulbCommands.BulbBrightnessCommand(b, w, n, payload);
    ConnectedInput(Bulb, b, payload, reply);
    SettleOne(Bulb, Ask(b, GetSysInfo), LightReply(Brightness(Num(n)), true), reply);
  }

  lemma SettleOne(kind: Kind, b: Legacy, q: Pending, reply: Reply)
    ensures SettleAll(kind, b, [q], reply) == Settle(kind, b, q, reply)
  {
    assert [q][..0] == [];
  }

  lemma BrightnessSettled(b: Legacy, n: nat, reply: Reply)
    requires b.device.Some? && reply.ok
    requires Flag(reply.info, "is_dimmable") == Some(Num(1)) && OnOff(Bulb, reply.info).Some?
    ensures var b1 := Settle(Bulb, Ask(b, GetSysInfo), LightReply(Brightness(Num(n)), true), reply);
      var d := b.device.value;
      && b1.connected == b.connected
      && (1 <= n <= 100 ==>
            b1.issued == b.issued + [Request(d, GetSysInfo), Request(d, SetLightState(map["brightness" := Num(n)])), Request(d, GetSysInfo)]
            && b1.errors == b.errors)
      && (n > 100 ==>
            b1.issued == b.issued + [Request(d, GetSysInfo), Request(d, GetSysInfo)]
            && b1.errors == b.errors + [ErrorText("Brightness Should be between 1 and 100.")])
  {
    LightThenInfo(Bulb, Ask(b, GetSysInfo), Brightness(Num(n)), reply);
    BrightnessRule(reply.info, Num(n));
  }

  /** A light change followed by the information request: the node stays
      connected when the information can be read. */
  lemma LightThenInfo(kind: Kind, b: Legacy, light: Light, reply: Reply)
    requires b.device.Some? && reply.ok && OnOff(kind, reply.info).Some?
    ensures var b0 := LightSettled(b, light, reply);
      var b1 := Settle(kind, b, LightReply(light, true), reply);
      && b1.issued == b0.issued + [Request(b.device.value, GetSysInfo)]
      && b1.errors == b0.errors && b1.connected == b.connected
      && b0.connected == b.connected
  {
  }

  /** Loose equality makes the bulb switch on for 1 and '1' as for true; the
      plug's strict switch sends only booleans and the power words to
      setPowerState, and throws on a number. */
  lemma PowerPayloads(b: Legacy)
    requires b.device.Some?
    ensures SmartBulbs.Dispatch(b, Num(1)) == (Ask(b, SetPowerState(Num(1))), [PowerThenInfo(SetPowerState(Num(1)))], false)
    ensures SmartPlugBaks.Dispatch(b, Num(1)) == (b, [], true)
    ensures SmartPlugBaks.Dispatch(b, Str("on")) == (Ask(b, SetPowerState(Bool(true))), [PowerThenInfo(SetPowerState(Bool(true)))], false)
  {
    assert Upper("on") == "ON";
  }

  /** 'switch' toggles the power without awaiting or reporting anything. */
  lemma SwitchToggles(kind: Kind, b: Legacy, reply: Reply)
    requires Valid(b) && b.configured && b.connected
    ensures Input(kind, b, Str("switch"), reply) == Ask(b, TogglePowerState)
  {
    var s := "switch";
    assert s[0] == 's';
    assert Command(s) == Some((TogglePowerState, []));
    match kind
    case Bulb =>
      BulbCommands.BulbWord(b, s);
      NotContains(s, "brightness");
      NotContains(s, "temperature");
    case BakPlug =>
      assert Upper(s) == "SWITCH";
  }

  /** An object input: the power request first (a toggle exactly when state
      is 'toggle'), and for the bulb one information request per light
      change; the node's state is reported once all of them settle. */
  lemma ObjectRequests(kind: Kind, b: Legacy, m: map<string, JsValue>)
    requires b.device.Some?
    ensures var (b1, qs, _) := Dispatch(kind, b, Object(m));
      var ops := match kind case Bulb => (if "state" in m then [PowerOp(m["state"])] else []) + SmartBulbs.LightOps(SmartBulbs.Lights(m))
                            case BakPlug => SmartPlugBaks.ObjectOps(m);
      && b1.issued == b.issued + Requests(b.device.value, ops)
      && (|ops| > 0 && ops[0] == TogglePowerState <==> "state" in m && m["state"] == Str("toggle"))
      && |qs| > 0 && qs[|qs| - 1].JointThenInfo?
      && (kind == Bulb ==> forall i :: 0 <= i < |qs| - 1 ==> qs[i].LightReply? && !qs[i].thenInfo)
  {
  }
}
