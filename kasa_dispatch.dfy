/** The decisions the kasa-plus node takes on one input message for one
    connected device (nodes/kasa-plus.js, processInput, validateNumber,
    handleCommand and the routing of sendControlResult). Given the payload and
    the device's capabilities, the outcome lists the device operations
    requested, the event directives handed on, the errors reported and whether
    a TypeError ended the processing early. */
module KasaDispatch {
  import opened Strings
  import opened JsValues
  import opened DeviceApi

  /** The device properties processInput consults. */
  datatype Caps = Caps(
    deviceType: string,
    supportsBrightness: bool,
    supportsDimmer: bool,
    supportsColorTemperature: bool,
    supportsColor: bool)

  /** The errors the node reports (node.error). */
  datatype Report =
    | InvalidState                                  // 'Invalid state value; ...'
    | InvalidValue(prop: string, min: int, max: int) // 'Invalid <prop> value; Should be between <min> and <max>'
    | InvalidPayload(payload: JsValue)              // 'Invalid input: <JSON of payload>'
    | InvalidCommand(cmd: string)                   // 'Invalid input: <cmd>'

  /** What processing one input produced:
      `control`: operations whose joint success triggers sendControlResult;
      `query`: the operation handleCommand requested, whose result is sent;
      `directives`: the arguments handed to handleEventAction, in order;
      `thrown`: a TypeError cut the processing short. */
  datatype Outcome = Outcome(
    control: seq<Op>,
    query: Option<Op>,
    directives: seq<JsValue>,
    reports: seq<Report>,
    thrown: bool)

  // ---------------------------------------------------------------------------
  // Power words

  datatype PowerWord = Toggle | On | Off | NotPower

  /** The three case-insensitive tests `/^(TOGGLE|SWITCH)$/i`,
      `/^(ON|TRUE)$/i` and `/^(OFF|FALSE)$/i`, tried in this order. Without the
      `u` flag such a test never maps a non-ASCII character to an ASCII letter,
      so ASCII case folding is exact here. */
  function PowerWordOf(s: string): PowerWord
  {
    var u := Upper(s);
    if u == "TOGGLE" || u == "SWITCH" then Toggle
    else if u == "ON" || u == "TRUE" then On
    else if u == "OFF" || u == "FALSE" then Off
    else NotPower
  }

  /** The power word tests accept exactly the listed words in any mix of cases. */
  lemma PowerWordOfIff(s: string)
    ensures PowerWordOf(s) == Toggle <==> SpellsIgnoringCase(s, "TOGGLE") || SpellsIgnoringCase(s, "SWITCH")
    ensures PowerWordOf(s) == On <==> SpellsIgnoringCase(s, "ON") || SpellsIgnoringCase(s, "TRUE")
    ensures PowerWordOf(s) == Off <==> SpellsIgnoringCase(s, "OFF") || SpellsIgnoringCase(s, "FALSE")
  {
    UpperEqualsIff(s, "TOGGLE");
    UpperEqualsIff(s, "SWITCH");
    UpperEqualsIff(s, "ON");
    UpperEqualsIff(s, "TRUE");
    UpperEqualsIff(s, "OFF");
    UpperEqualsIff(s, "FALSE");
  }

  /** The operation a power word requests. */
  function PowerOps(w: PowerWord): (r: seq<Op>)
    ensures |r| == (if w == NotPower then 0 else 1)
  {
    match w
    case Toggle => [TogglePowerState]
    case On => [SetPowerState(Bool(true))]
    case Off => [SetPowerState(Bool(false))]
    case NotPower => []
  }

  // ---------------------------------------------------------------------------
  // validateNumber

  /** `(value >= min && value <= max) || value === undefined`. */
  predicate ValidateNumber(v: JsValue, min: int, max: int)
  {
    NumberWithin(v, min, max) || v.Undefined?
  }

  /** A number passes exactly when it lies in the inclusive range; undefined
      always passes; a decimal string passes exactly as its number does; NaN
      (an object, a non-numeric string) never passes. */
  lemma ValidateNumberMeaning(n: int, k: nat, s: string, m: map<string, JsValue>, min: int, max: int)
    requires StringToNumber(s).None?
    ensures ValidateNumber(Num(n), min, max) <==> min <= n <= max
    ensures ValidateNumber(Undefined, min, max)
    ensures ValidateNumber(Str(NatToString(k)), min, max) <==> min <= k <= max
    ensures !ValidateNumber(Str(s), min, max)
    ensures !ValidateNumber(Object(m), min, max)
  {
    NumberValidates(n, min, max);
    DecimalValidates(k, min, max);
    NaNFails(s, m, min, max);
  }

  lemma NumberValidates(n: int, min: int, max: int)
    ensures ValidateNumber(Num(n), min, max) <==> min <= n <= max
    ensures ValidateNumber(Undefined, min, max)
  {
  }

  lemma NaNFails(s: string, m: map<string, JsValue>, min: int, max: int)
    requires StringToNumber(s).None?
    ensures !ValidateNumber(Str(s), min, max)
    ensures !ValidateNumber(Object(m), min, max)
  {
  }

  lemma DecimalValidates(k: nat, min: int, max: int)
    ensures ValidateNumber(Str(NatToString(k)), min, max) <==> min <= k <= max
  {
    StringToNumberOfNat(k);
  }

  /** The boundaries of the brightness, temperature, hue and saturation ranges. */
  lemma RangeBoundaries()
    ensures ValidateNumber(Num(1), 1, 100) && ValidateNumber(Num(100), 1, 100)
    ensures !ValidateNumber(Num(0), 1, 100) && !ValidateNumber(Num(101), 1, 100)
    ensures ValidateNumber(Num(2700), 2700, 6500) && ValidateNumber(Num(6500), 2700, 6500)
    ensures !ValidateNumber(Num(2699), 2700, 6500) && !ValidateNumber(Num(6501), 2700, 6500)
    ensures ValidateNumber(Num(0), 0, 360) && ValidateNumber(Num(360), 0, 360)
    ensures !ValidateNumber(Num(-1), 0, 360) && !ValidateNumber(Num(361), 0, 360)
  {
  }

  // ---------------------------------------------------------------------------
  // The fields of an object payload

  /** The operations and reports one field contributes. */
  datatype Step = Step(ops: seq<Op>, reports: seq<Report>)

  /** `payload.state`: a power word, or an error. */
  function StateStep(m: map<string, JsValue>): (r: Step)
    ensures "state" !in m ==> r == Step([], [])
    ensures "state" in m && PowerWordOf(ToJsString(m["state"])) != NotPower
      ==> r == Step(PowerOps(PowerWordOf(ToJsString(m["state"]))), [])
    ensures "state" in m && PowerWordOf(ToJsString(m["state"])) == NotPower ==> r == Step([], [InvalidState])
  {
    if "state" !in m then Step([], [])
    else
      var w := PowerWordOf(ToJsString(m["state"]));
      if w == NotPower then Step([], [InvalidState]) else Step(PowerOps(w), [])
  }

  /** `payload.brightness`: considered only on a device that supports
      brightness or dimming; a bulb sets it through its light state. */
  function BrightnessStep(m: map<string, JsValue>, caps: Caps): (r: Step)
    ensures |r.ops| == 1 <==>
      "brightness" in m && (caps.supportsBrightness || caps.supportsDimmer) && ValidateNumber(m["brightness"], 1, 100)
    ensures r.reports == [InvalidValue("brightness", 1, 100)] <==>
      "brightness" in m && (caps.supportsBrightness || caps.supportsDimmer) && !ValidateNumber(m["brightness"], 1, 100)
    ensures |r.ops| == 0 || |r.reports| == 0
    ensures |r.ops| == 1 ==> (r.ops[0] ==
      if caps.deviceType == "bulb" then SetLightState(map["brightness" := m["brightness"]])
      else SetBrightness(m["brightness"]))
  {
    if "brightness" in m && (caps.supportsBrightness || caps.supportsDimmer) then
      if ValidateNumber(m["brightness"], 1, 100) then
        if caps.deviceType == "bulb" then Step([SetLightState(map["brightness" := m["brightness"]])], [])
        else Step([SetBrightness(m["brightness"])], [])
      else Step([], [InvalidValue("brightness", 1, 100)])
    else Step([], [])
  }

  /** `payload.temperature`: colour temperature in kelvin. */
  function TemperatureStep(m: map<string, JsValue>, caps: Caps): (r: Step)
    ensures |r.ops| == 1 <==>
      "temperature" in m && caps.supportsColorTemperature && ValidateNumber(m["temperature"], 2700, 6500)
    ensures r.reports == [InvalidValue("temperature", 2700, 6500)] <==>
      "temperature" in m && caps.supportsColorTemperature && !ValidateNumber(m["temperature"], 2700, 6500)
    ensures |r.ops| == 0 || |r.reports| == 0
    ensures |r.ops| == 1 ==> r.ops[0] == SetLightState(map["color_temp" := m["temperature"]])
  {
    if "temperature" in m && caps.supportsColorTemperature then
      if ValidateNumber(m["temperature"], 2700, 6500) then
        Step([SetLightState(map["color_temp" := m["temperature"]])], [])
      else Step([], [InvalidValue("temperature", 2700, 6500)])
    else Step([], [])
  }

  /** `payload.hsb`: hue, then saturation, then brightness are validated,
      stopping at the first failure; the accepted state is a copy of the hsb
      value's own properties. None is the TypeError of reading a property of a
      null or undefined hsb. */
  function HsbStep(m: map<string, JsValue>, caps: Caps): (r: Option<Step>)
    ensures r.None? <==> "hsb" in m && caps.supportsColor && (m["hsb"].Null? || m["hsb"].Undefined?)
    ensures r.Some? && |r.value.ops| == 1 ==> "hsb" in m && r.value.ops[0] == SetLightState(Spread(m["hsb"]))
    ensures r.Some? ==> |r.value.ops| <= 1 && |r.value.reports| <= 1 && (|r.value.ops| == 0 || |r.value.reports| == 0)
    ensures r.Some? && |r.value.ops| == 1 <==>
      "hsb" in m && caps.supportsColor && !m["hsb"].Null? && !m["hsb"].Undefined?
      && ValidateNumber(Prop(m["hsb"], "hue").value, 0, 360)
      && ValidateNumber(Prop(m["hsb"], "saturation").value, 0, 100)
      && ValidateNumber(Prop(m["hsb"], "brightness").value, 1, 100)
  {
    if "hsb" in m && caps.supportsColor then
      var h := m["hsb"];
      match Prop(h, "hue")
      case None => None
      case Some(hue) =>
        if !ValidateNumber(hue, 0, 360) then Some(Step([], [InvalidValue("hue", 0, 360)]))
        else if !ValidateNumber(Prop(h, "saturation").value, 0, 100) then Some(Step([], [InvalidValue("saturation", 0, 100)]))
        else if !ValidateNumber(Prop(h, "brightness").value, 1, 100) then Some(Step([], [InvalidValue("brightness", 1, 100)]))
        else Some(Step([SetLightState(Spread(h))], []))
    else Some(Step([], []))
  }

  /** `payload.led`: only a plug has an LED to set; nothing is reported otherwise. */
  function LedStep(m: map<string, JsValue>, caps: Caps): (r: Step)
    ensures r.reports == []
    ensures |r.ops| == 1 <==> "led" in m && caps.deviceType == "plug"
    ensures |r.ops| == 1 ==> r.ops[0] == SetLedState(m["led"])
  {
    if "led" in m && caps.deviceType == "plug" then Step([SetLedState(m["led"])], []) else Step([], [])
  }

  /** The pieces of `s.split('|')` as string values. */
  function SplitDirectives(s: string): (r: seq<JsValue>)
    ensures |r| == |Split(s, '|')|
    ensures forall i :: 0 <= i < |r| ==> r[i] == Str(Split(s, '|')[i])
  {
    var parts := Split(s, '|');
    seq(|parts|, i requires 0 <= i < |parts| => Str(parts[i]))
  }

  /** `payload.events`: the items of an array, or the `|`-separated pieces of
      a string; any other value is ignored. */
  function EventsField(m: map<string, JsValue>): (r: seq<JsValue>)
    ensures "events" !in m ==> r == []
  {
    if "events" !in m then []
    else
      match m["events"]
      case Array(items) => items
      case Str(s) => SplitDirectives(s)
      case _ => []
  }

  /** An object payload: each field in turn, independently of the others,
      except that a TypeError on `hsb` abandons led and events. */
  function ObjectOutcome(m: map<string, JsValue>, caps: Caps): Outcome
  {
    var st, br, te := StateStep(m), BrightnessStep(m, caps), TemperatureStep(m, caps);
    var before := st.ops + br.ops + te.ops;
    var reported := st.reports + br.reports + te.reports;
    match HsbStep(m, caps)
    case None => Outcome(before, None, [], reported, true)
    case Some(hs) =>
      var led := LedStep(m, caps);
      Outcome(before + hs.ops + led.ops, None, EventsField(m), reported + hs.reports, false)
  }

  // ---------------------------------------------------------------------------
  // handleCommand

  /** The five text commands and the query each requests; anything else is an
      invalid input. */
  function HandleCommand(cmd: string): (r: Option<Op>)
    ensures r.Some? <==> cmd in {"getInfo", "getCloudInfo", "getQuickInfo", "getMeterInfo", "eraseStats"}
    ensures r.Some? ==> r.value in {GetSysInfo, GetCloudInfo, GetInfo, GetMeterRealtime, EraseStats}
  {
    if cmd == "getInfo" then Some(GetSysInfo)
    else if cmd == "getCloudInfo" then Some(GetCloudInfo)
    else if cmd == "getQuickInfo" then Some(GetInfo)
    else if cmd == "getMeterInfo" then Some(GetMeterRealtime)
    else if cmd == "eraseStats" then Some(EraseStats)
    else None
  }

  /** Different commands request different queries. */
  lemma HandleCommandInjective(a: string, b: string)
    requires HandleCommand(a).Some? && HandleCommand(a) == HandleCommand(b)
    ensures a == b
  {
  }

  /** The outcome of running handleCommand on `cmd`. */
  function CommandOutcome(cmd: string): (r: Outcome)
    ensures r.control == [] && r.directives == [] && !r.thrown
    ensures r.query.Some? <==> r.reports == []
    ensures r.query.None? ==> r.reports == [InvalidCommand(cmd)]
  {
    match HandleCommand(cmd)
    case Some(op) => Outcome([], Some(op), [], [], false)
    case None => Outcome([], None, [], [InvalidCommand(cmd)], false)
  }

  // ---------------------------------------------------------------------------
  // processInput

  /** A string payload that is not a power word goes to the event directives
      when it contains `|` or starts with START or STOP in any case. */
  predicate IsDirectiveString(s: string)
  {
    '|' in s || StartsWith(Upper(s), "START") || StartsWith(Upper(s), "STOP")
  }

  function StringOutcome(s: string): Outcome
  {
    var w := PowerWordOf(s);
    if w != NotPower then Outcome(PowerOps(w), None, [], [], false)
    else if IsDirectiveString(s) then Outcome([], None, SplitDirectives(s), [], false)
    else CommandOutcome(s)
  }

  /** processInput: a plain object, then an array, then a string, then a
      boolean; every other payload is reported as invalid. */
  function ProcessInput(payload: JsValue, caps: Caps): Outcome
  {
    match payload
    case Object(m) => ObjectOutcome(m, caps)
    case Array(items) => Outcome([], None, items, [], false)
    case Str(s) => StringOutcome(s)
    case Bool(b) => Outcome([SetPowerState(Bool(b))], None, [], [], false)
    case _ => Outcome([], None, [], [InvalidPayload(payload)], false)
  }

  /** The categories of processInput: what each kind of payload can produce. */
  lemma Classification(payload: JsValue, caps: Caps)
    ensures var r := ProcessInput(payload, caps);
      && (r.thrown ==> payload.Object?)
      && (r.query.Some? ==> payload.Str?)
      && (payload.Array? ==> r == Outcome([], None, payload.items, [], false))
      && (payload.Bool? ==> r == Outcome([SetPowerState(payload)], None, [], [], false))
      && (InvalidPayload(payload) in r.reports <==> payload.Null? || payload.Undefined? || payload.Num?)
      && (payload.Null? || payload.Undefined? || payload.Num? ==> r.control == [] && r.directives == [] && r.query.None?)
  {
  }

  /** A string payload: a power word issues its power operation; otherwise a
      directive string is split into directives; otherwise the string is a
      command. */
  lemma StringRouting(s: string, caps: Caps)
    ensures var r := ProcessInput(Str(s), caps);
      && !r.thrown
      && (PowerWordOf(s) != NotPower ==> r.control == PowerOps(PowerWordOf(s)) && r.directives == [] && r.reports == [])
      && (PowerWordOf(s) == NotPower && IsDirectiveString(s) ==>
            r.control == [] && r.directives == SplitDirectives(s) && r.reports == [] && r.query.None?)
      && (PowerWordOf(s) == NotPower && !IsDirectiveString(s) ==>
            r.control == [] && r.directives == [] && r.query == HandleCommand(s))
  {
  }

  /** A spelled `start<X>` directive (with no `|` in X) reaches the event table
      as itself, one directive. */
  lemma StartDirectiveRoutes(e: string, caps: Caps)
    requires '|' !in e
    ensures ProcessInput(Str("start" + e), caps).directives == [Str("start" + e)]
  {
    var s := "start" + e;
    assert Upper(s)[..5] == "START";
    assert Upper(s)[0] == 'S' && Upper(s)[1] == 'T';
    assert PowerWordOf(s) == NotPower;
    assert '|' !in s by {
      assert forall i :: 5 <= i < |s| ==> s[i] == e[i - 5];
    }
    assert Split(s, '|') == [s];
  }

  /** Strings starting with START or STOP in any case are directives even where
      the case-sensitive start/stop match later fails: STARTPowerEvents is
      handed to handleEventAction. */
  lemma UpperCaseDirectiveRoutes(caps: Caps)
    ensures ProcessInput(Str("STARTPowerEvents"), caps).directives == [Str("STARTPowerEvents")]
  {
    var s := "STARTPowerEvents";
    assert Upper(s)[..5] == "START";
    assert Upper(s)[0] == 'S' && Upper(s)[1] == 'T';
    assert PowerWordOf(s) == NotPower;
    assert '|' !in s;
    assert Split(s, '|') == [s];
  }

  /** clearEvents is not a command of this node: it is reported as invalid and
      changes no listener. */
  lemma ClearEventsIsInvalid(caps: Caps)
    ensures ProcessInput(Str("clearEvents"), caps)
         == Outcome([], None, [], [InvalidCommand("clearEvents")], false)
  {
    var s := "clearEvents";
    assert Upper(s)[0] == 'C';
    assert PowerWordOf(s) == NotPower;
    assert !IsDirectiveString(s);
  }

  /** A rejected object field issues no operation and leaves every other field
      as it would be without it: the outcome differs from the outcome without
      that field only in the report. */
  lemma RejectedFieldIsIgnored(m: map<string, JsValue>, caps: Caps, k: string)
    requires k in {"state", "brightness", "temperature"} && k in m
    requires k == "state" ==> PowerWordOf(ToJsString(m["state"])) == NotPower
    requires k == "brightness" ==> (caps.supportsBrightness || caps.supportsDimmer) && !ValidateNumber(m["brightness"], 1, 100)
    requires k == "temperature" ==> caps.supportsColorTemperature && !ValidateNumber(m["temperature"], 2700, 6500)
    ensures var r := ProcessInput(Object(m), caps);
      var r0 := ProcessInput(Object(m - {k}), caps);
      && r.control == r0.control && r.directives == r0.directives && r.thrown == r0.thrown
      && |r.reports| == |r0.reports| + 1
  {
    var m0 := m - {k};
    assert HsbStep(m0, caps) == HsbStep(m, caps);
    assert LedStep(m0, caps) == LedStep(m, caps);
    assert EventsField(m0) == EventsField(m);
    if k == "state" {
      assert StateStep(m0) == Step([], []);
      assert BrightnessStep(m0, caps) == BrightnessStep(m, caps);
      assert TemperatureStep(m0, caps) == TemperatureStep(m, caps);
    } else if k == "brightness" {
      assert StateStep(m0) == StateStep(m);
      assert BrightnessStep(m0, caps) == Step([], []);
      assert TemperatureStep(m0, caps) == TemperatureStep(m, caps);
    } else {
      assert StateStep(m0) == StateStep(m);
      assert BrightnessStep(m0, caps) == BrightnessStep(m, caps);
      assert TemperatureStep(m0, caps) == Step([], []);
    }
  }

  /** An hsb value of null or undefined on a colour device throws: the
      operations requested before it stay requested, the events field is never
      reached and no control result follows. */
  lemma NullHsbThrows(m: map<string, JsValue>, caps: Caps)
    requires "hsb" in m && caps.supportsColor && (m["hsb"].Null? || m["hsb"].Undefined?)
    ensures var r := ProcessInput(Object(m), caps);
      && r.thrown && r.directives == []
      && r.control == StateStep(m).ops + BrightnessStep(m, caps).ops + TemperatureStep(m, caps).ops
  {
  }

  // ---------------------------------------------------------------------------
  // sendControlResult (routing only)

  datatype ControlAction = RunCommand(cmd: string) | SendResult | SendNothing

  /** After the control operations succeed: the 'info' payload type re-runs
      the configured payload as a command; every other payload type sends a
      message only when no input has been seen or passthru is set. */
  function ControlRoute(payloadType: string, configPayload: string, passthru: bool, nodeInput: bool): (r: ControlAction)
    ensures r.RunCommand? <==> payloadType == "info"
    ensures r.RunCommand? ==> r.cmd == configPayload
    ensures r == SendResult <==> payloadType != "info" && (!nodeInput || passthru)
  {
    if payloadType == "info" then RunCommand(configPayload)
    else if !nodeInput || passthru then SendResult
    else SendNothing
  }
}
