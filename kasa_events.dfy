/** The per-device listener table of the kasa-plus node (nodes/kasa-plus.js).
    A device object is an event emitter; the node installs "proxy" listeners on
    the library's native events that re-emit them under node-level category
    names (setupEventProxies), and `start<X>`/`stop<X>`/`stopAllEvents`
    directives add and remove the listeners that turn a category into output
    messages (handleEventAction, makeEventHandler). */
module KasaEvents {
  import opened Strings
  import opened JsValues

  /** A listener on a device's event bus. */
  datatype Handler =
    | Proxy                  // re-emits a native event under its category names
    | Forward(sysInfo: bool) // sends an output message; `sysInfo` selects the raw-sysinfo form

  /** Event name to its listeners, in registration order. */
  type Table = map<string, seq<Handler>>

  /** An emitter lists a name only while it has listeners. */
  ghost predicate WellFormed(t: Table)
  {
    forall e :: e in t ==> |t[e]| > 0
  }

  /** No listener of the raw-sysinfo form has been registered. */
  ghost predicate NoSysInfoForms(t: Table)
  {
    forall e, i :: e in t && 0 <= i < |t[e]| ==> t[e][i] != Forward(true)
  }

  /** The output messages a device's listeners send. */
  datatype Sent =
    | EventMsg(topic: string, event: string) // { topic, payload: { event, timestamp, ... } }
    | SysInfoMsg(topic: string)              // { topic, payload: device.sysInfo }

  // ---------------------------------------------------------------------------
  // Directives: handleEventAction

  datatype Directive = StopAll | Start(event: string) | Stop(event: string) | NoMatch

  predicate IsLineTerminator(c: char)
  {
    c == '\n' || c == '\r' || c as int == 0x2028 || c as int == 0x2029
  }

  /** The longest prefix of `s` without a line terminator: what `(.+)` captures. */
  function LineHead(s: string): (r: string)
    ensures |r| <= |s| && r == s[..|r|]
    ensures forall i :: 0 <= i < |r| ==> !IsLineTerminator(r[i])
    ensures |r| < |s| ==> IsLineTerminator(s[|r|])
  {
    if |s| == 0 || IsLineTerminator(s[0]) then ""
    else
      var r := [s[0]] + LineHead(s[1..]);
      assert forall i :: 1 <= i < |r| ==> r[i] == LineHead(s[1..])[i - 1];
      r
  }

  /** `s.match(/^(start|stop)(.+)/)`: whether it matched, and the captured
      start/stop word and event name. The match is case-sensitive. */
  function MatchStartStop(s: string): Option<(bool, string)>
  {
    if StartsWith(s, "start") && |LineHead(s[5..])| > 0 then Some((true, LineHead(s[5..])))
    else if StartsWith(s, "stop") && |LineHead(s[4..])| > 0 then Some((false, LineHead(s[4..])))
    else None
  }

  /** How a directive is read: `stopAllEvents` exactly, then the start/stop
      match; anything else (a non-matching string, a non-string) matches nothing. */
  function ParseDirective(cmd: JsValue): Directive
  {
    if cmd == Str("stopAllEvents") then StopAll
    else if !cmd.Str? then NoMatch
    else
      match MatchStartStop(cmd.s)
      case Some((isStart, event)) => if isStart then Start(event) else Stop(event)
      case None => NoMatch
  }

  /** The directive string that spells `d`. */
  function DirectiveString(d: Directive): string
  {
    match d
    case StopAll => "stopAllEvents"
    case Start(e) => "start" + e
    case Stop(e) => "stop" + e
    case NoMatch => ""
  }

  /** An event name a directive can carry: one line, not empty. */
  ghost predicate ValidEventName(e: string)
  {
    |e| > 0 && forall i :: 0 <= i < |e| ==> !IsLineTerminator(e[i])
  }

  lemma LineHeadWhole(s: string)
    requires forall i :: 0 <= i < |s| ==> !IsLineTerminator(s[i])
    ensures LineHead(s) == s
  {
  }

  /** Reading a spelled directive gives back the directive (`stopAllEvents` is
      read as StopAll, never as Stop("AllEvents")). */
  lemma ParseDirectiveString(d: Directive)
    requires d.Start? || d.Stop? ==> ValidEventName(d.event)
    requires d != Stop("AllEvents") && d != NoMatch
    ensures ParseDirective(Str(DirectiveString(d))) == d
  {
    match d
    case StopAll =>
    case Start(e) =>
      var s := "start" + e;
      assert s[5..] == e;
      assert s != "stopAllEvents" by { assert s[2] == 'a'; }
      LineHeadWhole(e);
    case Stop(e) =>
      var s := "stop" + e;
      assert s[4..] == e;
      assert "stopAllEvents"[4..] == "AllEvents";
      assert s != "stopAllEvents";
      assert !StartsWith(s, "start") by {
        if |s| >= 5 { assert s[2] == 'o'; }
      }
      LineHeadWhole(e);
  }

  /** makeEventHandler: the raw-sysinfo form is chosen only for InfoEvents while
      no input has been processed yet. */
  function MakeEventHandler(event: string, nodeInput: bool): (h: Handler)
    ensures h == Forward(true) <==> event == "InfoEvents" && !nodeInput
  {
    Forward(event == "InfoEvents" && !nodeInput)
  }

  /** The listeners of `hs` that are proxies, in order. */
  function Proxies(hs: seq<Handler>): (r: seq<Handler>)
    ensures |r| <= |hs|
    ensures forall i :: 0 <= i < |r| ==> r[i] == Proxy
    ensures Proxy in hs <==> |r| > 0
    ensures forall h :: h in r ==> h in hs
  {
    if |hs| == 0 then []
    else if hs[0] == Proxy then [Proxy] + Proxies(hs[1..])
    else Proxies(hs[1..])
  }

  /** Removes every output listener and keeps the proxies. */
  function RemoveForwards(t: Table): (r: Table)
    ensures forall e :: e in r <==> e in t && Proxy in t[e]
  {
    map e | e in t && Proxy in t[e] :: Proxies(t[e])
  }

  /** handleEventAction, with a directive that matches nothing ignored (the
      guard `if (!match) return`) and stopAllEvents removing the output
      listeners only. */
  function ApplyDirective(t: Table, cmd: JsValue, nodeInput: bool): Table
  {
    match ParseDirective(cmd)
    case StopAll => RemoveForwards(t)
    case Start(e) => if e in t then t else t[e := [MakeEventHandler(e, nodeInput)]]
    case Stop(e) => t - {e}
    case NoMatch => t
  }

  /** `cmds.forEach(cmd => handleEventAction(device, cmd))`. */
  function ApplyDirectives(t: Table, cmds: seq<JsValue>, nodeInput: bool): Table
    decreases |cmds|
  {
    if |cmds| == 0 then t
    else ApplyDirectives(ApplyDirective(t, cmds[0], nodeInput), cmds[1..], nodeInput)
  }

  lemma {:induction false} ApplyDirectivesSnoc(t: Table, cmds: seq<JsValue>, c: JsValue, nodeInput: bool)
    ensures ApplyDirectives(t, cmds + [c], nodeInput)
         == ApplyDirective(ApplyDirectives(t, cmds, nodeInput), c, nodeInput)
    decreases |cmds|
  {
    if |cmds| > 0 {
      assert (cmds + [c])[1..] == cmds[1..] + [c];
      ApplyDirectivesSnoc(ApplyDirective(t, cmds[0], nodeInput), cmds[1..], c, nodeInput);
    }
  }

  lemma {:induction false} ProxiesIdempotent(hs: seq<Handler>)
    ensures Proxies(Proxies(hs)) == Proxies(hs)
  {
    if |hs| > 0 {
      ProxiesIdempotent(hs[1..]);
    }
  }

  /** Every directive is idempotent: applying it twice is applying it once. */
  lemma DirectiveIdempotent(t: Table, cmd: JsValue, nodeInput: bool)
    ensures ApplyDirective(ApplyDirective(t, cmd, nodeInput), cmd, nodeInput)
         == ApplyDirective(t, cmd, nodeInput)
  {
    if ParseDirective(cmd) == StopAll {
      var r := RemoveForwards(t);
      forall e | e in r ensures Proxies(r[e]) == r[e] {
        ProxiesIdempotent(t[e]);
      }
    }
  }

  /** `start<X>` registers exactly one output listener for X, and only when X
      has no listener yet; nothing else changes. */
  lemma StartRegistersOnce(t: Table, e: string, nodeInput: bool)
    requires ValidEventName(e)
    ensures var r := ApplyDirective(t, Str("start" + e), nodeInput);
      && e in r
      && (e in t ==> r == t)
      && (e !in t ==> r[e] == [MakeEventHandler(e, nodeInput)] && r - {e} == t)
  {
    ParseDirectiveString(Start(e));
    if e !in t {
      var r := ApplyDirective(t, Str("start" + e), nodeInput);
      assert r == t[e := [MakeEventHandler(e, nodeInput)]];
      assert r - {e} == t;
    }
  }

  /** `stop<X>` removes every listener of X and nothing else; with none, it
      changes nothing. */
  lemma StopRemovesAll(t: Table, e: string, nodeInput: bool)
    requires ValidEventName(e) && e != "AllEvents"
    ensures var r := ApplyDirective(t, Str("stop" + e), nodeInput);
      && e !in r
      && r == t - {e}
      && (e !in t ==> r == t)
  {
    ParseDirectiveString(Stop(e));
  }

  /** `stopAllEvents` leaves no output listener, whatever the table held,
      and keeps each proxy. */
  lemma StopAllLeavesNoOutput(t: Table, nodeInput: bool)
    ensures var r := ApplyDirective(t, Str("stopAllEvents"), nodeInput);
      && (forall e, i :: e in r && 0 <= i < |r[e]| ==> r[e][i] == Proxy)
      && (forall e :: e in t && Proxy in t[e] ==> e in r)
  {
  }

  /** Every output listener registered after an input has been processed is
      of the event-message form. */
  lemma ApplyDirectiveKeepsNoSysInfo(t: Table, cmd: JsValue)
    requires NoSysInfoForms(t)
    ensures NoSysInfoForms(ApplyDirective(t, cmd, true))
  {
    var r := ApplyDirective(t, cmd, true);
    if ParseDirective(cmd) == StopAll {
      forall e, i | e in r && 0 <= i < |r[e]| ensures r[e][i] != Forward(true) {
        assert r[e][i] == Proxy;
      }
    }
  }

  lemma ApplyDirectiveKeepsWellFormed(t: Table, cmd: JsValue, nodeInput: bool)
    requires WellFormed(t)
    ensures WellFormed(ApplyDirective(t, cmd, nodeInput))
  {
  }

  lemma {:induction false} ApplyDirectivesKeep(t: Table, cmds: seq<JsValue>)
    requires WellFormed(t) && NoSysInfoForms(t)
    ensures WellFormed(ApplyDirectives(t, cmds, true)) && NoSysInfoForms(ApplyDirectives(t, cmds, true))
    decreases |cmds|
  {
    if |cmds| > 0 {
      ApplyDirectiveKeepsWellFormed(t, cmds[0], true);
      ApplyDirectiveKeepsNoSysInfo(t, cmds[0]);
      ApplyDirectivesKeep(ApplyDirective(t, cmds[0], true), cmds[1..]);
    }
  }

  // ---------------------------------------------------------------------------
  // Proxies: setupEventProxies and event delivery

  /** The native events setupEventProxies listens to; bulbs report power as
      `lightstate-*`, every other device type as `power-*`. */
  function ProxyNames(deviceType: string): seq<string>
  {
    if deviceType == "bulb" then
      ["lightstate-on", "lightstate-off", "lightstate-update", "in-use", "not-in-use",
       "in-use-update", "emeter-realtime-update", "polling-error"]
    else
      ["power-on", "power-off", "power-update", "in-use", "not-in-use",
       "in-use-update", "emeter-realtime-update", "polling-error"]
  }

  ghost predicate Distinct(names: seq<string>)
  {
    forall i, j :: 0 <= i < j < |names| ==> names[i] != names[j]
  }

  lemma ProxyNamesDistinct(deviceType: string)
    ensures Distinct(ProxyNames(deviceType))
  {
  }

  /** The node-level categories a proxy re-emits a native event under, in
      emission order (`polling-error` is only logged). */
  function ProxyTargets(native: string): seq<string>
  {
    if native in ["power-on", "power-off", "lightstate-on", "lightstate-off"] then ["PowerEvents"]
    else if native in ["power-update", "lightstate-update"] then ["PowerUpdateEvents", "InfoEvents"]
    else if native in ["in-use", "not-in-use"] then ["InUseEvents"]
    else if native == "in-use-update" then ["InUseUpdateEvents"]
    else if native == "emeter-realtime-update" then ["MeterEvents"]
    else []
  }

  /** `device.on(name, h)`: appended after the listeners already there. */
  function AddListener(t: Table, name: string, h: Handler): (r: Table)
    ensures name in r && r[name] == (if name in t then t[name] else []) + [h]
    ensures forall e :: e != name ==> (e in r <==> e in t) && (e in t ==> r[e] == t[e])
  {
    t[name := (if name in t then t[name] else []) + [h]]
  }

  function AddProxies(t: Table, names: seq<string>): Table
    decreases |names|
  {
    if |names| == 0 then t else AddProxies(AddListener(t, names[0], Proxy), names[1..])
  }

  /** Installing one proxy per distinct name appends a proxy to exactly those
      names' listeners. */
  lemma {:induction false} AddProxiesEffect(t: Table, names: seq<string>)
    requires Distinct(names)
    ensures var r := AddProxies(t, names);
      && (forall e :: e in names ==> e in r && r[e] == Listeners(t, e) + [Proxy])
      && (forall e :: e !in names ==> (e in r <==> e in t) && Listeners(r, e) == Listeners(t, e))
    decreases |names|
  {
    if |names| > 0 {
      var t1 := AddListener(t, names[0], Proxy);
      assert Distinct(names[1..]) by {
        forall i, j | 0 <= i < j < |names| - 1 ensures names[1..][i] != names[1..][j] {
          assert names[1..][i] == names[i + 1];
        }
      }
      AddProxiesEffect(t1, names[1..]);
      assert names[0] !in names[1..] by {
        forall k | 0 <= k < |names| - 1 ensures names[1..][k] != names[0] {
          assert names[1..][k] == names[k + 1];
        }
      }
      forall e | e in names[1..] ensures Listeners(t1, e) == Listeners(t, e) {
      }
    }
  }

  function SetupEventProxies(t: Table, deviceType: string): (r: Table)
    ensures forall e :: e in ProxyNames(deviceType) ==> e in r && r[e] == Listeners(t, e) + [Proxy]
    ensures forall e :: e !in ProxyNames(deviceType) ==> (e in r <==> e in t) && Listeners(r, e) == Listeners(t, e)
  {
    ProxyNamesDistinct(deviceType);
    AddProxiesEffect(t, ProxyNames(deviceType));
    AddProxies(t, ProxyNames(deviceType))
  }

  /** What the output listeners among `hs` send when `name` is emitted. */
  function ForwardMessages(hs: seq<Handler>, topic: string, name: string): seq<Sent>
  {
    if |hs| == 0 then []
    else
      (match hs[0]
       case Forward(sysInfo) => if sysInfo then [SysInfoMsg(topic)] else [EventMsg(topic, name)]
       case Proxy => [])
      + ForwardMessages(hs[1..], topic, name)
  }

  function Listeners(t: Table, name: string): seq<Handler>
  {
    if name in t then t[name] else []
  }

  /** `device.emit(category)`: the categories are not native names, so a proxy
      on one would re-emit nothing. */
  function EmitCategory(t: Table, topic: string, category: string): seq<Sent>
  {
    ForwardMessages(Listeners(t, category), topic, category)
  }

  function EmitCategories(t: Table, topic: string, categories: seq<string>): seq<Sent>
  {
    if |categories| == 0 then []
    else EmitCategory(t, topic, categories[0]) + EmitCategories(t, topic, categories[1..])
  }

  /** The messages sent when the library emits native event `name`: every
      listener runs in registration order. */
  function EmitNative(t: Table, topic: string, name: string): seq<Sent>
  {
    EmitVia(Listeners(t, name), t, topic, name)
  }

  function EmitVia(hs: seq<Handler>, t: Table, topic: string, name: string): seq<Sent>
  {
    if |hs| == 0 then []
    else
      (match hs[0]
       case Forward(sysInfo) => if sysInfo then [SysInfoMsg(topic)] else [EventMsg(topic, name)]
       case Proxy => EmitCategories(t, topic, ProxyTargets(name)))
      + EmitVia(hs[1..], t, topic, name)
  }

  /** A category name is never a proxied native name. */
  lemma CategoriesAreNotNative(native: string, c: string)
    requires c in ProxyTargets(native)
    ensures ProxyTargets(c) == []
  {
  }

  /** A fresh device's proxies: one on each native name, and no listener on
      any node-level category. */
  lemma FreshProxies(deviceType: string)
    ensures var t := SetupEventProxies(map[], deviceType);
      && WellFormed(t) && NoSysInfoForms(t)
      && (forall e :: e in t ==> t[e] == [Proxy])
      && Listeners(t, "emeter-realtime-update") == [Proxy]
      && "MeterEvents" !in t && "PowerEvents" !in t
  {
    FreshProxiesShape(deviceType);
    ProxyNamesMembers(deviceType);
  }

  lemma FreshProxiesShape(deviceType: string)
    ensures var t := SetupEventProxies(map[], deviceType);
      && WellFormed(t) && NoSysInfoForms(t)
      && (forall e :: e in t ==> t[e] == [Proxy])
  {
  }

  lemma ProxyNamesMembers(deviceType: string)
    ensures "emeter-realtime-update" in ProxyNames(deviceType)
    ensures "MeterEvents" !in ProxyNames(deviceType) && "PowerEvents" !in ProxyNames(deviceType)
  {
  }

  /** Every device type other than a bulb gets a proxy on `power-on`. */
  lemma PowerProxy(deviceType: string)
    requires deviceType != "bulb"
    ensures Listeners(SetupEventProxies(map[], deviceType), "power-on") == [Proxy]
  {
    assert "power-on" in ProxyNames(deviceType);
  }

  /** A native event whose only listener is a proxy onto one category sends
      what that category's output listeners send. */
  lemma EmitThroughProxy(t: Table, native: string, cat: string, topic: string)
    requires ProxyTargets(native) == [cat]
    requires Listeners(t, native) == [Proxy]
    ensures EmitNative(t, topic, native) == ForwardMessages(Listeners(t, cat), topic, cat)
  {
    assert EmitCategories(t, topic, [cat]) == EmitCategory(t, topic, cat) + EmitCategories(t, topic, []);
    assert EmitVia([Proxy], t, topic, native) == EmitCategories(t, topic, [cat]) + EmitVia([], t, topic, native);
  }

  /** Once a proxy re-emits native event `native` as category `cat`,
      `start<cat>` makes one such event produce exactly one message, and a
      later `stop<cat>` silences it again. */
  lemma StartStopScenario(t0: Table, native: string, cat: string, topic: string)
    requires ProxyTargets(native) == [cat]
    requires Listeners(t0, native) == [Proxy]
    requires cat !in t0
    requires ValidEventName(cat) && cat != "AllEvents"
    ensures var t1 := ApplyDirective(t0, Str("start" + cat), true);
      var t2 := ApplyDirective(t1, Str("stop" + cat), true);
      && EmitNative(t0, topic, native) == []
      && EmitNative(t1, topic, native) == [EventMsg(topic, cat)]
      && EmitNative(t2, topic, native) == []
  {
    CategoriesAreNotNative(native, cat);
    assert native != cat;
    EmitThroughProxy(t0, native, cat, topic);
    StartRegistersOnce(t0, cat, true);
    var t1 := ApplyDirective(t0, Str("start" + cat), true);
    assert t1 == t0[cat := [Forward(false)]] by {
      assert t1[cat] == [Forward(false)] && t1 - {cat} == t0;
    }
    EmitThroughProxy(t1, native, cat, topic);
    assert ForwardMessages([Forward(false)], topic, cat) == [EventMsg(topic, cat)] + ForwardMessages([], topic, cat);
    StopRemovesAll(t1, cat, true);
  }

  lemma MeterTarget()
    ensures ProxyTargets("emeter-realtime-update") == ["MeterEvents"]
  {
  }

  lemma PowerTarget()
    ensures ProxyTargets("power-on") == ["PowerEvents"]
  {
  }

  /** The meter scenario: with a fresh device's proxies, `startMeterEvents`
      turns one meter reading into one MeterEvents message and
      `stopMeterEvents` silences it. */
  lemma MeterEventsScenario(deviceType: string, topic: string)
    ensures var t0 := SetupEventProxies(map[], deviceType);
      var t1 := ApplyDirective(t0, Str("start" + "MeterEvents"), true);
      var t2 := ApplyDirective(t1, Str("stop" + "MeterEvents"), true);
      && EmitNative(t0, topic, "emeter-realtime-update") == []
      && EmitNative(t1, topic, "emeter-realtime-update") == [EventMsg(topic, "MeterEvents")]
      && EmitNative(t2, topic, "emeter-realtime-update") == []
  {
    MeterTarget();
    FreshProxies(deviceType);
    StartStopScenario(SetupEventProxies(map[], deviceType), "emeter-realtime-update", "MeterEvents", topic);
  }

  // ---------------------------------------------------------------------------
  // handleEventAction as written (finding)

  /** handleEventAction as the code stands: `removeAllListeners()` with no
      argument empties the whole table, proxies included, and destructuring a
      failed match (or calling `match` on a non-string) throws a TypeError,
      here None. */
  function ApplyDirectiveAsWritten(t: Table, cmd: JsValue, nodeInput: bool): Option<Table>
  {
    if cmd == Str("stopAllEvents") then Some(map[])
    else if !cmd.Str? then None
    else
      match MatchStartStop(cmd.s)
      case None => None
      case Some((isStart, e)) =>
        if isStart then Some(if e in t then t else t[e := [MakeEventHandler(e, nodeInput)]])
        else Some(t - {e})
  }

  /** The `forEach` over directives as written: a throw abandons the rest. */
  function ApplyDirectivesAsWritten(t: Table, cmds: seq<JsValue>, nodeInput: bool): Option<Table>
    decreases |cmds|
  {
    if |cmds| == 0 then Some(t)
    else
      match ApplyDirectiveAsWritten(t, cmds[0], nodeInput)
      case None => None
      case Some(t') => ApplyDirectivesAsWritten(t', cmds[1..], nodeInput)
  }

  /** Where the code as written neither throws nor meets stopAllEvents, it
      agrees with the corrected reading. */
  lemma AsWrittenAgrees(t: Table, cmd: JsValue, nodeInput: bool)
    requires cmd != Str("stopAllEvents")
    requires ApplyDirectiveAsWritten(t, cmd, nodeInput).Some?
    ensures ApplyDirectiveAsWritten(t, cmd, nodeInput) == Some(ApplyDirective(t, cmd, nodeInput))
  {
  }

  /** The code as written throws on a directive list exactly when one of its
      directives matches nothing; `stopAllEvents` never throws. */
  lemma {:induction false} AsWrittenThrowsIff(t: Table, cmds: seq<JsValue>, nodeInput: bool)
    ensures ApplyDirectivesAsWritten(t, cmds, nodeInput).None?
        <==> exists i :: 0 <= i < |cmds| && ParseDirective(cmds[i]) == NoMatch
    decreases |cmds|
  {
    if |cmds| > 0 {
      match ApplyDirectiveAsWritten(t, cmds[0], nodeInput)
      case None =>
      case Some(t1) =>
        AsWrittenThrowsIff(t1, cmds[1..], nodeInput);
        if exists i :: 0 <= i < |cmds| && ParseDirective(cmds[i]) == NoMatch {
          var i :| 0 <= i < |cmds| && ParseDirective(cmds[i]) == NoMatch;
          assert i > 0 && cmds[1..][i - 1] == cmds[i];
        }
        if exists j :: 0 <= j < |cmds[1..]| && ParseDirective(cmds[1..][j]) == NoMatch {
          var j :| 0 <= j < |cmds[1..]| && ParseDirective(cmds[1..][j]) == NoMatch;
          assert cmds[j + 1] == cmds[1..][j];
        }
    }
  }

  /** A list of start and stop directives only: the code as written and the
      corrected reading leave the same table. */
  lemma {:induction false} AsWrittenAgreesAll(t: Table, cmds: seq<JsValue>, nodeInput: bool)
    requires forall i :: 0 <= i < |cmds| ==> ParseDirective(cmds[i]).Start? || ParseDirective(cmds[i]).Stop?
    ensures ApplyDirectivesAsWritten(t, cmds, nodeInput) == Some(ApplyDirectives(t, cmds, nodeInput))
    decreases |cmds|
  {
    if |cmds| > 0 {
      var t1 := ApplyDirective(t, cmds[0], nodeInput);
      assert ApplyDirectiveAsWritten(t, cmds[0], nodeInput) == Some(t1);
      assert forall i :: 0 <= i < |cmds[1..]| ==> cmds[1..][i] == cmds[i + 1];
      AsWrittenAgreesAll(t1, cmds[1..], nodeInput);
    }
  }

  /** A string that starts with neither `start` nor `stop` matches nothing. */
  lemma NoStartStop(s: string)
    requires !StartsWith(s, "start") && !StartsWith(s, "stop")
    ensures MatchStartStop(s) == None
  {
  }

  /** The guard `if (!match) return` is unreachable: a string that the
      start/stop pattern does not match throws instead of being ignored. This
      includes `STARTPowerEvents`, which the case-insensitive routing guard
      sends here while the match itself is case-sensitive. */
  lemma NonMatchingDirectiveThrows(t: Table, nodeInput: bool)
    ensures ApplyDirectiveAsWritten(t, Str("foo"), nodeInput) == None
    ensures ApplyDirectiveAsWritten(t, Str("STARTPowerEvents"), nodeInput) == None
    ensures ApplyDirective(t, Str("foo"), nodeInput) == t
    ensures ApplyDirective(t, Str("STARTPowerEvents"), nodeInput) == t
  {
    assert "foo"[0] == 'f';
    NoStartStop("foo");
    assert "STARTPowerEvents"[0] == 'S';
    NoStartStop("STARTPowerEvents");
  }

  /** A throw part-way through a directive list drops the directives after it:
      `foo|startPowerEvents` registers nothing as written, while the corrected
      reading registers PowerEvents. */
  lemma ThrowDropsLaterDirectives(foo: JsValue, start: JsValue, nodeInput: bool)
    requires foo == Str("foo") && start == Str("start" + "PowerEvents")
    ensures ApplyDirectivesAsWritten(map[], [foo, start], nodeInput) == None
    ensures "PowerEvents" in ApplyDirectives(map[], [foo, start], nodeInput)
  {
    NonMatchingDirectiveThrows(map[], nodeInput);
    ApplyTwo(map[], foo, start, nodeInput);
    PowerEventsValid("PowerEvents");
    StartAfterNoOp(map[], foo, "PowerEvents", nodeInput);
  }

  lemma PowerEventsValid(e: string)
    requires e == "PowerEvents"
    ensures ValidEventName(e)
  {
  }

  /** A start directive after one that changes nothing registers its event. */
  lemma StartAfterNoOp(t: Table, cmd: JsValue, e: string, nodeInput: bool)
    requires ApplyDirective(t, cmd, nodeInput) == t && ValidEventName(e)
    ensures e in ApplyDirectives(t, [cmd, Str("start" + e)], nodeInput)
  {
    StartRegistersOnce(t, e, nodeInput);
    ApplyTwo(t, cmd, Str("start" + e), nodeInput);
  }

  lemma ApplyTwo(t: Table, a: JsValue, b: JsValue, nodeInput: bool)
    ensures ApplyDirectives(t, [a, b], nodeInput)
         == ApplyDirective(ApplyDirective(t, a, nodeInput), b, nodeInput)
    ensures ApplyDirectivesAsWritten(t, [a, b], nodeInput)
         == match ApplyDirectiveAsWritten(t, a, nodeInput)
            case None => None
            case Some(t1) => ApplyDirectiveAsWritten(t1, b, nodeInput)
  {
    assert [a, b][1..] == [b];
    assert [b][1..] == [];
    var t1 := ApplyDirective(t, a, nodeInput);
    assert ApplyDirectives(t, [a, b], nodeInput) == ApplyDirectives(t1, [b], nodeInput);
    assert ApplyDirectives(t1, [b], nodeInput) == ApplyDirectives(ApplyDirective(t1, b, nodeInput), [], nodeInput);
    match ApplyDirectiveAsWritten(t, a, nodeInput)
    case None =>
    case Some(w1) =>
      assert ApplyDirectivesAsWritten(t, [a, b], nodeInput) == ApplyDirectivesAsWritten(w1, [b], nodeInput);
      match ApplyDirectiveAsWritten(w1, b, nodeInput)
      case None =>
      case Some(w2) =>
        assert ApplyDirectivesAsWritten(w1, [b], nodeInput) == ApplyDirectivesAsWritten(w2, [], nodeInput);
  }

  /** A table holding only proxies is unchanged by removing the output listeners. */
  lemma RemoveForwardsOfProxies(t: Table)
    requires forall e :: e in t ==> t[e] == [Proxy]
    ensures RemoveForwards(t) == t
  {
    forall e | e in t ensures Proxies(t[e]) == t[e] {
      assert Proxies([Proxy]) == [Proxy] + Proxies([]);
    }
  }

  /** stopAllEvents as written also removes the proxies, so a later
      `start<cat>` is never triggered by the device; the corrected reading
      keeps the proxies and the native event is reported. */
  lemma StopAllAsWrittenSilencesProxies(t0: Table, native: string, cat: string, topic: string)
    requires ProxyTargets(native) == [cat]
    requires Listeners(t0, native) == [Proxy]
    requires forall e :: e in t0 ==> t0[e] == [Proxy]
    requires cat !in t0
    requires ValidEventName(cat)
    ensures var cmds := [Str("stopAllEvents"), Str("start" + cat)];
      var w := ApplyDirectivesAsWritten(t0, cmds, true);
      var c := ApplyDirectives(t0, cmds, true);
      && w.Some? && EmitNative(w.value, topic, native) == []
      && EmitNative(c, topic, native) == [EventMsg(topic, cat)]
  {
    var stopAll, start := Str("stopAllEvents"), Str("start" + cat);
    CategoriesAreNotNative(native, cat);
    assert native != cat;
    ApplyTwo(t0, stopAll, start, true);
    // as written: the table is emptied, then only the output listener is added
    var w1 := ApplyDirective(map[], start, true);
    StartRegistersOnce(map[], cat, true);
    ParseDirectiveString(Start(cat));
    AsWrittenAgrees(map[], start, true);
    assert ApplyDirectivesAsWritten(t0, [stopAll, start], true) == Some(w1);
    assert Listeners(w1, native) == [];
    // corrected: the proxies stay, and the output listener joins them
    RemoveForwardsOfProxies(t0);
    StartRegistersOnce(t0, cat, true);
    var c := ApplyDirective(t0, start, true);
    assert c == t0[cat := [Forward(false)]] by {
      assert c[cat] == [Forward(false)] && c - {cat} == t0;
    }
    EmitThroughProxy(c, native, cat, topic);
    assert ForwardMessages([Forward(false)], topic, cat) == [EventMsg(topic, cat)] + ForwardMessages([], topic, cat);
  }

  /** The power scenario of the finding, on a fresh plug's proxies. */
  lemma StopAllAsWrittenPlug(deviceType: string, topic: string)
    requires deviceType != "bulb"
    ensures var cmds := [Str("stopAllEvents"), Str("start" + "PowerEvents")];
      var t0 := SetupEventProxies(map[], deviceType);
      var w := ApplyDirectivesAsWritten(t0, cmds, true);
      && w.Some? && EmitNative(w.value, topic, "power-on") == []
      && EmitNative(ApplyDirectives(t0, cmds, true), topic, "power-on") == [EventMsg(topic, "PowerEvents")]
  {
    PowerTarget();
    FreshProxies(deviceType);
    PowerProxy(deviceType);
    StopAllAsWrittenSilencesProxies(SetupEventProxies(map[], deviceType), "power-on", "PowerEvents", topic);
  }
}
