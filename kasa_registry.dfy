/** The device registry of the kasa-plus node (nodes/kasa-plus.js) as a
    state machine. `devices` maps an id (`<ip>` or `<ip>/<plug>`) to a
    placeholder, which queues the inputs that arrive before a connection, or to
    a live device object. Device objects live in a heap `objs`, because one
    discovered object can be stored under several ids at once. Each callback of
    the node is one atomic step; `ok` stands for the success of every promise
    the library returns in that step. The class in kasa_node.dfy performs these
    steps in place and is proved to agree with the functions here. */
module KasaRegistry {
  import opened Strings
  import opened JsValues
  import opened DeviceApi
  import opened KasaEvents
  import opened KasaDispatch
  import opened KasaStatus

  /** An input message: `topic` is empty when the message has none. */
  datatype Msg = Msg(topic: string, payload: JsValue)

  datatype Entry =
    | Placeholder(queue: seq<Msg>, connecting: bool)
    | Live(ref: nat)

  /** What the library reports about a device when it hands the object over. */
  datatype DevInfo = DevInfo(
    host: string,
    childId: string,
    children: seq<string>,
    caps: Caps,
    relayOn: bool,
    supportsEmeter: bool,
    meterText: string)

  /** A device object as the node sees it: the library's data plus the fields
      and listeners the node sets on it. */
  datatype Dev = Dev(
    info: DevInfo,
    shortId: string,
    online: bool,
    table: Table,
    polling: bool)

  /** An operation requested on device object `ref`. */
  datatype Issue = Issue(ref: nat, op: Op)

  /** An output message of the node. */
  datatype Out =
    | EventOut(msg: Sent)                 // from a listener started by a directive
    | ControlOut(topic: string)           // sendControlResult for a non-'info' payload type
    | QueryOut(topic: string, op: Op)     // the answer to a handleCommand query

  /** An error the node logs. */
  datatype Note =
    | Reported(report: Report)
    | AlreadyConnected(id: string)
    | ConnectError(id: string)            // logged only in debug mode
    | ControlError                        // logged only in debug mode
    | QueryError
    | PollingError(shortId: string)       // logged only in debug mode
    | Uncaught                            // a TypeError escaped a callback

  /** The node's configuration after the defaults of the constructor. */
  datatype Config = Config(
    deviceId: string,
    payload: string,
    payloadType: string,
    passthru: bool,
    events: bool,
    discovery: bool,
    debug: bool)

  /** The editor's raw settings. */
  datatype RawConfig = RawConfig(
    device: string,
    interval: string,
    eventInterval: string,
    payload: Option<string>,
    payloadType: Option<string>,
    passthru: bool,
    debug: bool)

  /** `parseInt(s)` used as a condition: NaN and 0 are false. */
  predicate IntervalSet(s: string)
  {
    match ParseInt(s) case Some(n) => n != 0 case None => false
  }

  /** The constructor's reading of the settings: payload defaults to
      getInfo, payload type to info, and the event proxies and discovery are
      on exactly when their intervals parse to a non-zero number. */
  function ConfigOf(raw: RawConfig): (c: Config)
    ensures c.payload == (if raw.payload.Some? then raw.payload.value else "getInfo")
    ensures c.payloadType == (if raw.payloadType.Some? then raw.payloadType.value else "info")
    ensures c.events <==> IntervalSet(raw.eventInterval)
    ensures c.discovery <==> IntervalSet(raw.interval)
    ensures c.deviceId == raw.device && c.passthru == raw.passthru && c.debug == raw.debug
  {
    Config(
      raw.device,
      match raw.payload case Some(p) => p case None => "getInfo",
      match raw.payloadType case Some(t) => t case None => "info",
      raw.passthru,
      IntervalSet(raw.eventInterval),
      IntervalSet(raw.interval),
      raw.debug)
  }

  /** A positive interval, as the editor writes it, turns its feature on. */
  lemma PositiveIntervalIsSet(n: nat)
    ensures IntervalSet(NatToString(n)) <==> n != 0
  {
    ParseIntOfNat(n);
  }

  /** The whole state of a node. */
  datatype Node = Node(
    devices: map<string, Entry>,
    objs: map<nat, Dev>,
    nextRef: nat,
    nodeInput: bool,
    issued: seq<Issue>,
    sent: seq<Out>,
    notes: seq<Note>,
    connects: seq<(string, string)>,
    status: Option<Status>,
    discovering: bool)

  /** Every live entry refers to an allocated object, every allocated object
      is below the next free reference, and no listener table holds the
      raw-sysinfo handler form. */
  ghost predicate Valid(n: Node)
  {
    && (forall id :: id in n.devices && n.devices[id].Live? ==> n.devices[id].ref in n.objs)
    && (forall r :: r in n.objs ==> r < n.nextRef)
    && (forall r :: r in n.objs ==> WellFormed(n.objs[r].table) && NoSysInfoForms(n.objs[r].table))
  }

  // ---------------------------------------------------------------------------
  // Ids

  /** `let [deviceIP, plug] = id.split('/')`: the host and the plug (empty
      when absent), as handed to getDevice. */
  function SplitId(id: string): (r: (string, string))
    ensures '/' !in r.0 && '/' !in r.1
  {
    var parts := Split(id, '/');
    (parts[0], if |parts| > 1 then parts[1] else "")
  }

  /** `+childId.slice(-2)` rendered in a template: the number written by the
      last two characters, or NaN. */
  function ChildSuffix(childId: string): (r: string)
    ensures '/' !in r
  {
    var tail := if |childId| >= 2 then childId[|childId| - 2..] else childId;
    NumberText(StringToNumber(tail))
  }

  /** A number as a template literal renders it; None is NaN. */
  function NumberText(v: Option<int>): (r: string)
    ensures forall i :: 0 <= i < |r| ==> r[i] != '/'
  {
    match v
    case Some(k) =>
      var t := IntToString(k);
      assert forall i :: 0 <= i < |t| ==> t[i] == '-' || '0' <= t[i] <= '9' by {
        if k < 0 {
          assert t == "-" + NatToString(-k);
          assert forall i :: 1 <= i < |t| ==> t[i] == NatToString(-k)[i - 1];
        }
      }
      t
    case None => "NaN"
  }

  /** The ids a discovered device answers to: its host, and one id per child
      when it has children and is not itself a child. */
  function DiscoveryIds(host: string, childId: string, children: seq<string>): (ids: seq<string>)
    ensures |ids| == 1 + (if childId == "" then |children| else 0)
    ensures ids[0] == host
    ensures forall k :: 0 <= k < |ids| - 1 ==> ids[k + 1] == host + "/" + ChildSuffix(children[k])
  {
    [host] + (if childId == "" then seq(|children|, k requires 0 <= k < |children| => host + "/" + ChildSuffix(children[k])) else [])
  }

  /** A discovery id splits back into the host and the child's number, so
      connecting to it addresses the same outlet. */
  lemma DiscoveryIdSplits(host: string, childId: string)
    requires '/' !in host
    ensures SplitId(host) == (host, "")
    ensures SplitId(host + "/" + ChildSuffix(childId)) == (host, ChildSuffix(childId))
  {
    var suffix := ChildSuffix(childId);
    SplitJoin([host], '/');
    assert Join([host], "/") == host;
    SplitJoin([host, suffix], '/');
    assert Join([host, suffix], "/") == host + "/" + suffix by {
      assert Join([host, suffix][1..], "/") == suffix;
    }
  }

  // ---------------------------------------------------------------------------
  // Processing one input on a live device (processInput and its promises)

  function Issues(r: nat, ops: seq<Op>): (s: seq<Issue>)
    ensures |s| == |ops| && forall i :: 0 <= i < |ops| ==> s[i] == Issue(r, ops[i])
  {
    seq(|ops|, i requires 0 <= i < |ops| => Issue(r, ops[i]))
  }

  function Notes(reports: seq<Report>): (s: seq<Note>)
    ensures |s| == |reports| && forall i :: 0 <= i < |reports| ==> s[i] == Reported(reports[i])
  {
    seq(|reports|, i requires 0 <= i < |reports| => Reported(reports[i]))
  }

  function EventOuts(msgs: seq<Sent>): (s: seq<Out>)
    ensures |s| == |msgs| && forall i :: 0 <= i < |msgs| ==> s[i] == EventOut(msgs[i])
  {
    seq(|msgs|, i requires 0 <= i < |msgs| => EventOut(msgs[i]))
  }

  /** A query is requested; its answer is sent, or its failure logged. */
  function RunQuery(n: Node, r: nat, op: Op, ok: bool): Node
    requires r in n.objs
  {
    var n1 := n.(issued := n.issued + [Issue(r, op)]);
    if ok then n1.(sent := n1.sent + [QueryOut(n.objs[r].shortId, op)])
    else n1.(notes := n1.notes + [QueryError])
  }

  /** handleCommand on a live device. */
  function RunCommand(n: Node, r: nat, cmd: string, ok: bool): Node
    requires r in n.objs
  {
    match HandleCommand(cmd)
    case Some(op) => RunQuery(n, r, op, ok)
    case None => n.(notes := n.notes + [Reported(InvalidCommand(cmd))])
  }

  /** What follows the control operations: their failure is logged in debug
      mode; their success leads to sendControlResult. */
  function ControlResult(n: Node, cfg: Config, r: nat, ok: bool): Node
    requires r in n.objs
  {
    if !ok then (if cfg.debug then n.(notes := n.notes + [ControlError]) else n)
    else
      match ControlRoute(cfg.payloadType, cfg.payload, cfg.passthru, n.nodeInput)
      case RunCommand(cmd) => RunCommand(n, r, cmd, ok)
      case SendResult => n.(sent := n.sent + [ControlOut(n.objs[r].shortId)])
      case SendNothing => n
  }

  /** processInput on device object `r`, and the promises it starts; the flag
      says whether a TypeError escaped. */
  function Process(n: Node, cfg: Config, r: nat, msg: Msg, ok: bool): (Node, bool)
    requires r in n.objs
  {
    var dev := n.objs[r];
    var out := ProcessInput(msg.payload, dev.info.caps);
    var n1 := n.(
      nodeInput := true,
      issued := n.issued + Issues(r, out.control),
      objs := n.objs[r := dev.(table := ApplyDirectives(dev.table, out.directives, true))],
      notes := n.notes + Notes(out.reports));
    if out.thrown then (n1, true)
    else
      var n2 := if out.query.Some? then RunQuery(n1, r, out.query.value, ok) else n1;
      var n3 := if |out.control| > 0 then ControlResult(n2, cfg, r, ok) else n2;
      (n3, false)
  }

  /** `queue.forEach(msg => processInput(msg, device))`: a throw abandons the
      rest of the queue. */
  function Replay(n: Node, cfg: Config, r: nat, q: seq<Msg>, ok: bool): (Node, bool)
    requires r in n.objs
    decreases |q|
  {
    if |q| == 0 then (n, false)
    else
      var (n1, thrown) := Process(n, cfg, r, q[0], ok);
      if thrown then (n1, true)
      else
        ProcessKeepsObjs(n, cfg, r, q[0], ok);
        Replay(n1, cfg, r, q[1..], ok)
  }

  /** `n1` differs from `n` at most in its logs of requests, outputs and errors. */
  ghost predicate LogsOnly(n: Node, n1: Node)
  {
    n1 == n.(issued := n1.issued, sent := n1.sent, notes := n1.notes)
  }

  lemma RunCommandLogsOnly(n: Node, r: nat, cmd: string, ok: bool)
    requires r in n.objs
    ensures LogsOnly(n, RunCommand(n, r, cmd, ok))
  {
  }

  lemma ControlResultLogsOnly(n: Node, cfg: Config, r: nat, ok: bool)
    requires r in n.objs
    ensures LogsOnly(n, ControlResult(n, cfg, r, ok))
  {
    if ok {
      match ControlRoute(cfg.payloadType, cfg.payload, cfg.passthru, n.nodeInput)
      case RunCommand(cmd) => RunCommandLogsOnly(n, r, cmd, ok);
      case SendResult =>
      case SendNothing =>
    }
  }

  lemma ProcessKeepsObjs(n: Node, cfg: Config, r: nat, msg: Msg, ok: bool)
    requires r in n.objs
    ensures var n1 := Process(n, cfg, r, msg, ok).0;
      && n1.objs.Keys == n.objs.Keys
      && n1.devices == n.devices && n1.nextRef == n.nextRef && n1.status == n.status
      && n1.connects == n.connects && n1.discovering == n.discovering && n1.nodeInput
      && n1.objs[r] == n.objs[r].(table := n1.objs[r].table)
      && (forall r' :: r' in n.objs && r' != r ==> n1.objs[r'] == n.objs[r'])
  {
    var dev := n.objs[r];
    var out := ProcessInput(msg.payload, dev.info.caps);
    var n1 := n.(
      nodeInput := true,
      issued := n.issued + Issues(r, out.control),
      objs := n.objs[r := dev.(table := ApplyDirectives(dev.table, out.directives, true))],
      notes := n.notes + Notes(out.reports));
    if !out.thrown {
      var n2 := if out.query.Some? then RunQuery(n1, r, out.query.value, ok) else n1;
      assert LogsOnly(n1, n2);
      if |out.control| > 0 {
        ControlResultLogsOnly(n2, cfg, r, ok);
      }
    }
  }

  // ---------------------------------------------------------------------------
  // updateStatus

  /** The ids whose entry is a live device that is online; a placeholder has
      no `online` and counts as offline. */
  ghost function OnlineIds(n: Node): set<string>
  {
    set id | id in n.devices && n.devices[id].Live? && n.devices[id].ref in n.objs
                && n.objs[n.devices[id].ref].online
  }

  /** The state text of a device object. */
  function DevState(d: Dev): string
  {
    DeviceState(d.info.relayOn, if d.info.supportsEmeter then Some(d.info.meterText) else None)
  }

  /** The status updateStatus sets. */
  ghost function StatusSpec(n: Node): Status
  {
    var on := OnlineIds(n);
    assert on <= n.devices.Keys;
    var single := if |on| == 1 then (var id :| id in on; DevState(n.objs[n.devices[id].ref])) else "";
    SubsetCard(on, n.devices.Keys);
    StatusOf(|on|, |n.devices.Keys| - |on|, single)
  }

  lemma SubsetCard<T>(a: set<T>, b: set<T>)
    requires a <= b
    ensures |a| <= |b|
  {
    if a != {} {
      var x :| x in a;
      SubsetCard(a - {x}, b - {x});
    }
  }

  /** Updating the status in place. */
  ghost function WithStatus(n: Node): Node
  {
    n.(status := Some(StatusSpec(n)))
  }

  // ---------------------------------------------------------------------------
  // Steps

  /** The synchronous part of connectDevice: an absent id is ignored, a live
      entry is reported, a placeholder is marked connecting and the
      connection is requested. */
  function ConnectBegin(n: Node, id: string): Node
  {
    if id !in n.devices then n
    else
      match n.devices[id]
      case Live(_) => n.(notes := n.notes + [AlreadyConnected(id)])
      case Placeholder(q, _) =>
        n.(devices := n.devices[id := Placeholder(q, true)], connects := n.connects + [SplitId(id)])
  }

  /** The id an input is addressed to: its topic, else the configured device. */
  function TargetId(msg: Msg, cfg: Config): string
  {
    if msg.topic != "" then msg.topic else cfg.deviceId
  }

  /** The input handler. */
  ghost function InputStep(n: Node, cfg: Config, msg: Msg, ok: bool): Node
    requires Valid(n)
  {
    var id := TargetId(msg, cfg);
    if id == "" then n
    else if id in n.devices then
      match n.devices[id]
      case Placeholder(q, c) => n.(devices := n.devices[id := Placeholder(q + [msg], c)])
      case Live(r) =>
        var (n1, thrown) := Process(n, cfg, r, msg, ok);
        if thrown then n1.(notes := n1.notes + [Uncaught]) else n1
    else
      ConnectBegin(n.(devices := n.devices[id := Placeholder([msg], false)]), id)
  }

  /** setupDevice(id, device object r): name it, mark it online, install the
      proxies and start polling when events are configured, store it under
      `id` and replay the queue of the placeholder it replaces. The status is
      updated only when the replay does not throw. */
  ghost function SetupDevice(n: Node, cfg: Config, id: string, r: nat, ok: bool): (Node, bool)
    requires r in n.objs
  {
    var q := if id in n.devices && n.devices[id].Placeholder? then n.devices[id].queue else [];
    var (n2, thrown) := Replay(Install(n, cfg, id, r), cfg, r, q, ok);
    if thrown then (n2, true) else (WithStatus(n2), false)
  }

  /** The part of setupDevice before the replay. */
  function Install(n: Node, cfg: Config, id: string, r: nat): (n1: Node)
    requires r in n.objs
    ensures r in n1.objs
  {
    var dev := n.objs[r];
    var dev1 := dev.(
      shortId := id,
      online := true,
      table := if cfg.events then SetupEventProxies(dev.table, dev.info.caps.deviceType) else dev.table,
      polling := dev.polling || cfg.events);
    n.(objs := n.objs[r := dev1], devices := n.devices[id := Live(r)])
  }

  /** A fresh device object from the library. */
  function NewDev(info: DevInfo): Dev
  {
    Dev(info, "", false, map[], false)
  }

  function Allocate(n: Node, info: DevInfo): Node
  {
    n.(objs := n.objs[n.nextRef := NewDev(info)], nextRef := n.nextRef + 1)
  }

  /** A connection attempt succeeded: the new object is set up under `id`.
      A throw during the replay is caught by connectDevice and logged in debug
      mode. */
  ghost function ConnectOkStep(n: Node, cfg: Config, id: string, info: DevInfo, ok: bool): Node
  {
    var n1 := Allocate(n, info);
    var (n2, thrown) := SetupDevice(n1, cfg, id, n.nextRef, ok);
    if thrown && cfg.debug then n2.(notes := n2.notes + [ConnectError(id)]) else n2
  }

  /** A connection attempt failed: the placeholder stays, no longer connecting. */
  function ConnectFailStep(n: Node, cfg: Config, id: string): Node
  {
    var n1 := if id in n.devices && n.devices[id].Placeholder?
              then n.(devices := n.devices[id := n.devices[id].(connecting := false)]) else n;
    if cfg.debug then n1.(notes := n1.notes + [ConnectError(id)]) else n1
  }

  /** emitOnlineEvents for one id: a tracked placeholder that is not
      connecting is promoted on an online event; a live entry takes the new
      state and emits OnlineEvents. */
  ghost function DiscoverId(n: Node, cfg: Config, id: string, r: nat, state: bool, ok: bool): (Node, bool)
    requires Valid(n) && r in n.objs
  {
    if id !in n.devices then (n, false)
    else
      var e := n.devices[id];
      var (n1, thrown) :=
        if e.Placeholder? && !e.connecting && state then SetupDevice(n, cfg, id, r, ok) else (n, false);
      if thrown then (n1, true) else (MarkOnline(n1, id, state), false)
  }

  /** `device.online = state` and `device.emit('OnlineEvents', ...)` for the
      live device under `id`; a placeholder is left alone. */
  function MarkOnline(n: Node, id: string, state: bool): Node
  {
    if id in n.devices && n.devices[id].Live? && n.devices[id].ref in n.objs then
      var r' := n.devices[id].ref;
      var d := n.objs[r'].(online := state);
      n.(objs := n.objs[r' := d], sent := n.sent + EventOuts(EmitCategory(d.table, d.shortId, "OnlineEvents")))
    else n
  }

  lemma MarkOnlineValid(n: Node, id: string, state: bool)
    requires Valid(n)
    ensures var n1 := MarkOnline(n, id, state);
      Valid(n1) && n1.objs.Keys == n.objs.Keys && n1.devices == n.devices
      && n1.nextRef == n.nextRef && n1.connects == n.connects && n1.status == n.status
  {
  }

  /** `ids.forEach(...)`: a throw abandons the remaining ids. */
  ghost function DiscoverIds(n: Node, cfg: Config, ids: seq<string>, r: nat, state: bool, ok: bool): (Node, bool)
    requires Valid(n) && r in n.objs
    decreases |ids|
  {
    if |ids| == 0 then (n, false)
    else
      var (n1, thrown) := DiscoverId(n, cfg, ids[0], r, state, ok);
      if thrown then (n1, true)
      else
        DiscoverIdKeeps(n, cfg, ids[0], r, state, ok);
        DiscoverIds(n1, cfg, ids[1..], r, state, ok)
  }

  /** The ids of the discovered device, in order, with the object they
      should be set to. The discovered object is one the library already
      handed over (`known`), or a new one. */
  ghost function DiscoveryStep(n: Node, cfg: Config, known: Option<nat>, info: DevInfo, state: bool, ok: bool): Node
    requires Valid(n)
  {
    var (n0, r) := DiscoveryTarget(n, known, info);
    var d := n0.objs[r];
    AfterDiscovery(DiscoverIds(n0, cfg, DiscoveryIds(d.info.host, d.info.childId, d.info.children), r, state, ok))
  }

  /** The object a discovery event is about: the one handed over before, or
      a new one. */
  function DiscoveryTarget(n: Node, known: Option<nat>, info: DevInfo): (t: (Node, nat))
    requires Valid(n)
    ensures Valid(t.0) && t.1 in t.0.objs && t.0.devices == n.devices
  {
    AllocateValid(n, info);
    if known.Some? && known.value in n.objs then (n, known.value) else (Allocate(n, info), n.nextRef)
  }

  /** An uncaught throw is logged; otherwise the status is refreshed. */
  ghost function AfterDiscovery(p: (Node, bool)): Node
  {
    if p.1 then p.0.(notes := p.0.notes + [Uncaught]) else WithStatus(p.0)
  }

  /** The library emits native event `name` on device object `r` after
      updating its relay state and meter reading: every listener runs; the
      meter proxy also refreshes the status when the node tracks exactly one
      entry, and the polling-error proxy logs in debug mode. */
  ghost function NativeEventStep(n: Node, cfg: Config, r: nat, name: string, relayOn: bool, meterText: string): Node
    requires r in n.objs
  {
    var d := n.objs[r].(info := n.objs[r].info.(relayOn := relayOn, meterText := meterText));
    var proxies := |Proxies(Listeners(d.table, name))|;
    var n1 := n.(objs := n.objs[r := d], sent := n.sent + EventOuts(EmitNative(d.table, d.shortId, name)));
    if name == "emeter-realtime-update" && proxies > 0 && |n.devices| == 1 then WithStatus(n1)
    else if name == "polling-error" && proxies > 0 && cfg.debug then
      n1.(notes := n1.notes + PollingErrors(d.shortId, proxies))
    else n1
  }

  /** One polling-error log line per proxy listening to 'polling-error'. */
  function PollingErrors(shortId: string, k: nat): (s: seq<Note>)
    ensures |s| == k && forall i :: 0 <= i < k ==> s[i] == PollingError(shortId)
  {
    seq(k, _ => PollingError(shortId))
  }

  /** The objects stored under some id. */
  ghost function LiveRefs(n: Node): set<nat>
  {
    set id | id in n.devices && n.devices[id].Live? :: n.devices[id].ref
  }

  /** The close handler: polling stops on every stored device object, and
      discovery stops. */
  ghost function CloseStep(n: Node): Node
  {
    n.(objs := map r | r in n.objs :: if r in LiveRefs(n) then n.objs[r].(polling := false) else n.objs[r],
       discovering := false)
  }

  /** The constructor: with a configured device a placeholder with an empty
      queue is created and connected; otherwise the status is initialised. */
  ghost function Initial(cfg: Config): Node
  {
    var n := Node(map[], map[], 0, false, [], [], [], [], None, cfg.discovery);
    if cfg.deviceId != "" then ConnectBegin(n.(devices := map[cfg.deviceId := Placeholder([], false)]), cfg.deviceId)
    else WithStatus(n)
  }

  // ---------------------------------------------------------------------------
  // Every step keeps the registry valid

  lemma ProcessValid(n: Node, cfg: Config, r: nat, msg: Msg, ok: bool)
    requires Valid(n) && r in n.objs
    ensures Valid(Process(n, cfg, r, msg, ok).0)
  {
    var dev := n.objs[r];
    var out := ProcessInput(msg.payload, dev.info.caps);
    ApplyDirectivesKeep(dev.table, out.directives);
    ProcessKeepsObjs(n, cfg, r, msg, ok);
    ProcessTable(n, cfg, r, msg, ok);
  }

  /** The only listener change processing makes is applying the directives. */
  lemma ProcessTable(n: Node, cfg: Config, r: nat, msg: Msg, ok: bool)
    requires r in n.objs
    ensures Process(n, cfg, r, msg, ok).0.objs[r].table
         == ApplyDirectives(n.objs[r].table, ProcessInput(msg.payload, n.objs[r].info.caps).directives, true)
  {
    ProcessKeepsObjs(n, cfg, r, msg, ok);
    var dev := n.objs[r];
    var out := ProcessInput(msg.payload, dev.info.caps);
    var n1 := n.(
      nodeInput := true,
      issued := n.issued + Issues(r, out.control),
      objs := n.objs[r := dev.(table := ApplyDirectives(dev.table, out.directives, true))],
      notes := n.notes + Notes(out.reports));
    if !out.thrown {
      var n2 := if out.query.Some? then RunQuery(n1, r, out.query.value, ok) else n1;
      assert LogsOnly(n1, n2);
      if |out.control| > 0 {
        ControlResultLogsOnly(n2, cfg, r, ok);
      }
    }
  }

  /** How far processing follows handleEventAction as the code stands (the
      model applies the corrected reading): the code as written throws
      exactly when a directive of the input matches nothing, and when every
      directive is a start or a stop it leaves the table the model leaves. */
  lemma ProcessAsWritten(n: Node, cfg: Config, r: nat, msg: Msg, ok: bool)
    requires r in n.objs
    ensures var cmds := ProcessInput(msg.payload, n.objs[r].info.caps).directives;
      var w := ApplyDirectivesAsWritten(n.objs[r].table, cmds, true);
      && (w.None? <==> exists i :: 0 <= i < |cmds| && ParseDirective(cmds[i]) == NoMatch)
      && ((forall i :: 0 <= i < |cmds| ==> ParseDirective(cmds[i]).Start? || ParseDirective(cmds[i]).Stop?) ==>
            w == Some(Process(n, cfg, r, msg, ok).0.objs[r].table))
  {
    var cmds := ProcessInput(msg.payload, n.objs[r].info.caps).directives;
    AsWrittenThrowsIff(n.objs[r].table, cmds, true);
    ProcessTable(n, cfg, r, msg, ok);
    if forall i :: 0 <= i < |cmds| ==> ParseDirective(cmds[i]).Start? || ParseDirective(cmds[i]).Stop? {
      AsWrittenAgreesAll(n.objs[r].table, cmds, true);
    }
  }

  lemma {:induction false} ReplayValid(n: Node, cfg: Config, r: nat, q: seq<Msg>, ok: bool)
    requires Valid(n) && r in n.objs
    ensures var n1 := Replay(n, cfg, r, q, ok).0;
      && Valid(n1) && n1.objs.Keys == n.objs.Keys && n1.devices == n.devices
      && n1.nextRef == n.nextRef && n1.connects == n.connects && n1.discovering == n.discovering
      && n1.objs[r] == n.objs[r].(table := n1.objs[r].table)
      && (forall r' :: r' in n.objs && r' != r ==> n1.objs[r'] == n.objs[r'])
    decreases |q|
  {
    if |q| > 0 {
      ProcessValid(n, cfg, r, q[0], ok);
      ProcessKeepsObjs(n, cfg, r, q[0], ok);
      var (n1, thrown) := Process(n, cfg, r, q[0], ok);
      if !thrown {
        ReplayValid(n1, cfg, r, q[1..], ok);
      }
    }
  }

  /** Installing the proxies keeps a table well formed and free of the
      raw-sysinfo form. */
  lemma ProxiesKeepTable(t: Table, deviceType: string)
    requires WellFormed(t) && NoSysInfoForms(t)
    ensures var t1 := SetupEventProxies(t, deviceType);
      WellFormed(t1) && NoSysInfoForms(t1)
  {
    var t1 := SetupEventProxies(t, deviceType);
    forall e | e in t1 ensures |t1[e]| > 0 && forall i :: 0 <= i < |t1[e]| ==> t1[e][i] != Forward(true) {
      if e in ProxyNames(deviceType) {
        assert t1[e] == Listeners(t, e) + [Proxy];
        forall i | 0 <= i < |t1[e]| ensures t1[e][i] != Forward(true) {
          if i < |Listeners(t, e)| {
            assert t1[e][i] == t[e][i];
          }
        }
      } else {
        assert t1[e] == Listeners(t1, e) == Listeners(t, e);
      }
    }
  }

  lemma InstallValid(n: Node, cfg: Config, id: string, r: nat)
    requires Valid(n) && r in n.objs
    ensures var n1 := Install(n, cfg, id, r);
      && Valid(n1) && n1.objs.Keys == n.objs.Keys && n1.devices == n.devices[id := Live(r)]
      && n1.nextRef == n.nextRef && n1.connects == n.connects
      && n1.objs[r].online && n1.objs[r].shortId == id
      && (forall r' :: r' in n.objs && r' != r ==> n1.objs[r'] == n.objs[r'])
  {
    var dev := n.objs[r];
    if cfg.events {
      ProxiesKeepTable(dev.table, dev.info.caps.deviceType);
    }
  }

  lemma SetupDeviceValid(n: Node, cfg: Config, id: string, r: nat, ok: bool)
    requires Valid(n) && r in n.objs
    ensures var n1 := SetupDevice(n, cfg, id, r, ok).0;
      && Valid(n1) && n1.objs.Keys == n.objs.Keys && n1.devices == n.devices[id := Live(r)]
      && n1.nextRef == n.nextRef && n1.connects == n.connects
      && n1.objs[r].online && n1.objs[r].shortId == id
      && (forall r' :: r' in n.objs && r' != r ==> n1.objs[r'] == n.objs[r'])
  {
    var q := if id in n.devices && n.devices[id].Placeholder? then n.devices[id].queue else [];
    var n1 := Install(n, cfg, id, r);
    InstallValid(n, cfg, id, r);
    ReplayValid(n1, cfg, r, q, ok);
    var (n2, thrown) := Replay(n1, cfg, r, q, ok);
    var n3 := SetupDevice(n, cfg, id, r, ok).0;
    assert n3 == n2.(status := n3.status);
  }

  lemma DiscoverIdKeeps(n: Node, cfg: Config, id: string, r: nat, state: bool, ok: bool)
    requires Valid(n) && r in n.objs
    ensures var n1 := DiscoverId(n, cfg, id, r, state, ok).0;
      Valid(n1) && n1.objs.Keys == n.objs.Keys && n1.devices.Keys == n.devices.Keys
      && n1.nextRef == n.nextRef && n1.connects == n.connects
  {
    if id in n.devices {
      var e := n.devices[id];
      if e.Placeholder? && !e.connecting && state {
        SetupDeviceValid(n, cfg, id, r, ok);
        var n1 := SetupDevice(n, cfg, id, r, ok).0;
        assert n1.devices.Keys == n.devices.Keys;
        MarkOnlineValid(n1, id, state);
      } else {
        MarkOnlineValid(n, id, state);
      }
    }
  }

  lemma AllocateValid(n: Node, info: DevInfo)
    requires Valid(n)
    ensures var n1 := Allocate(n, info);
      && Valid(n1) && n.nextRef in n1.objs && n.nextRef !in n.objs && n1.devices == n.devices
      && n1.objs.Keys == n.objs.Keys + {n.nextRef}
      && (forall r :: r in n.objs ==> n1.objs[r] == n.objs[r])
  {
  }
}
