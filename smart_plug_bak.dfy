/** The input handler of the older smart-plug node (smart-plug.bak.js):
    power words are normalised to booleans, then a strict switch selects the
    command. */
module SmartPlugBaks {
  import opened Strings
  import opened JsValues
  import opened DeviceApi
  import opened KasaStatus
  import opened ActionStrings
  import opened LegacyNodes
  import SmartPlugs

  /** The requests of an object input, in the order they are pushed. */
  function ObjectOps(m: map<string, JsValue>): seq<Op>
  {
    (if "state" in m then [PowerOp(m["state"])] else [])
    + (if "brightness" in m then [SetBrightness(m["brightness"])] else [])
    + (if "led" in m then [SetLedState(m["led"])] else [])
  }

  /** An object input: the requests, then the joint promise that reports the
      new state; then `events` replaces the subscriptions (a value without
      forEach throws, after the requests). */
  function ObjectInput(b: Legacy, m: map<string, JsValue>): (Legacy, seq<Pending>, bool)
    requires b.device.Some?
  {
    var ops := ObjectOps(m);
    var b1 := AskAll(b, ops);
    var qs := [JointThenInfo(ops)];
    if "events" !in m then (b1, qs, false)
    else if m["events"].Array? then (b1.(action := Some(Subscribe(BakPlug, m["events"].items))), qs, false)
    else (b1, qs, true)
  }

  /** The strict switch over the normalised payload; the default case splits
      a string and throws on anything else. */
  function Dispatch(b: Legacy, payload: JsValue): (Legacy, seq<Pending>, bool)
    requires b.device.Some?
  {
    if IsPlainObject(payload) then ObjectInput(b, payload.fields)
    else
      var v := SmartPlugs.Normalise(payload);
      if v.Bool? then (Ask(b, SetPowerState(v)), [PowerThenInfo(SetPowerState(v))], false)
      else if v.Str? && Command(v.s).Some? then (Ask(b, Command(v.s).value.0), Command(v.s).value.1, false)
      else if v == Str("clearEvents") then (b.(action := Some("clearEvents")), [], false)
      else if v.Str? then (b.(action := Some(Subscribe(BakPlug, Words(v.s)))), [], false)
      else (b, [], true)
  }

  /** The input handler: a node without an address registers none, so the
      input changes nothing; while disconnected it only reports the error;
      otherwise the requests are made and their replies settle. */
  function Input(b: Legacy, payload: JsValue, reply: Reply): Legacy
    requires Valid(b)
  {
    if !b.configured then b
    else if !b.connected then HandleConnectionError(BakPlug, b, Some(ErrorText(InputUnreachableText(BakPlug))))
    else
      var (b1, qs, _) := Dispatch(b, payload);
      SettleAll(BakPlug, b1, qs, reply)
  }
}
