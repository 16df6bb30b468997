/** The input handler of the smart-bulb node (nodes/smart-bulb.js): how a
    message is routed to power, light, query and subscription requests. */
module SmartBulbs {
  import opened Strings
  import opened JsValues
  import opened DeviceApi
  import opened KasaStatus
  import opened ActionStrings
  import opened BulbLights
  import opened LegacyNodes

  /** `parseInt(s.split(':')[1])`; Undefined stands for NaN (no second piece
      or no digits), which every range check rejects. */
  function AfterColon(s: string): JsValue
  {
    var pieces := Split(s, ':');
    if |pieces| < 2 then Undefined
    else match ParseInt(pieces[1]) case Some(n) => Num(n) case None => Undefined
  }

  /** The light changes an object input asks for, in the order they are
      pushed. */
  function Lights(m: map<string, JsValue>): seq<Light>
  {
    (if "brightness" in m then [Brightness(m["brightness"])] else [])
    + (if "temperature" in m then [Temperature(m["temperature"])] else [])
    + (if "hsb" in m then [Hsb(m["hsb"])] else [])
  }

  /** Each light change starts with a getSysInfo request. */
  function LightOps(lights: seq<Light>): (ops: seq<Op>)
    ensures |ops| == |lights| && forall i :: 0 <= i < |ops| ==> ops[i] == GetSysInfo
  {
    seq(|lights|, _ => GetSysInfo)
  }

  function LightReplies(lights: seq<Light>, thenInfo: bool): (qs: seq<Pending>)
    ensures |qs| == |lights| && forall i :: 0 <= i < |qs| ==> qs[i] == LightReply(lights[i], thenInfo)
  {
    seq(|lights|, i requires 0 <= i < |lights| => LightReply(lights[i], thenInfo))
  }

  /** An object input: the power request, the light changes, and the joint
      promise that reports the new state; then `events` replaces the
      subscriptions (a value without forEach throws, after the requests). */
  function ObjectInput(b: Legacy, m: map<string, JsValue>): (Legacy, seq<Pending>, bool)
    requires b.device.Some?
  {
    var power := if "state" in m then [PowerOp(m["state"])] else [];
    var lights := Lights(m);
    var b1 := AskAll(b, power + LightOps(lights));
    var qs := LightReplies(lights, false) + [JointThenInfo(power)];
    if "events" !in m then (b1, qs, false)
    else if m["events"].Array? then (b1.(action := Some(Subscribe(Bulb, m["events"].items))), qs, false)
    else (b1, qs, true)
  }

  /** A string input: brightness and temperature commands first (by
      containment), then the exact commands, then a `|`-separated list of
      subscriptions. */
  function StringInput(b: Legacy, s: string): (Legacy, seq<Pending>)
    requires b.device.Some?
  {
    if Contains(s, "brightness") then (Ask(b, GetSysInfo), [LightReply(Brightness(AfterColon(s)), true)])
    else if Contains(s, "temperature") then (Ask(b, GetSysInfo), [LightReply(Temperature(AfterColon(s)), true)])
    else if Command(s).Some? then (Ask(b, Command(s).value.0), Command(s).value.1)
    else if s == "clearEvents" then (b.(action := Some(s)), [])
    else (b.(action := Some(Subscribe(Bulb, Words(s)))), [])
  }

  /** The synchronous part of the input handler while connected: a payload
      loosely equal to true or false sets the power; any other value that is
      not a string throws before requesting anything. */
  function Dispatch(b: Legacy, payload: JsValue): (Legacy, seq<Pending>, bool)
    requires b.device.Some?
  {
    if IsPlainObject(payload) then ObjectInput(b, payload.fields)
    else if LooseEqualsBool(payload, true) || LooseEqualsBool(payload, false) then
      (Ask(b, SetPowerState(payload)), [PowerThenInfo(SetPowerState(payload))], false)
    else if payload.Str? then
      var (b1, qs) := StringInput(b, payload.s);
      (b1, qs, false)
    else (b, [], true)
  }

  /** The input handler: a node without an address registers none, so the
      input changes nothing; while disconnected it only reports the error;
      otherwise the requests are made and their replies settle. */
  function Input(b: Legacy, payload: JsValue, reply: Reply): Legacy
    requires Valid(b)
  {
    if !b.configured then b
    else if !b.connected then HandleConnectionError(Bulb, b, Some(ErrorText(InputUnreachableText(Bulb))))
    else
      var (b1, qs, _) := Dispatch(b, payload);
      SettleAll(Bulb, b1, qs, reply)
  }
}
