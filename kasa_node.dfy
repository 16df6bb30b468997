/** The kasa-plus node object (nodes/kasa-plus.js, TpLinkNode) with its
    callbacks performed in place. Each method is proved to leave the node in
    the state the matching step function of KasaRegistry computes, and to keep
    the registry valid, so every property proved about the steps holds of the
    node. */
module KasaNodes {
  import opened JsValues
  import DeviceApi
  import opened KasaEvents
  import opened KasaDispatch
  import opened KasaStatus
  import opened KasaRegistry
  import opened KasaRegistryProps

  class KasaNode {
    const cfg: Config
    var devices: map<string, Entry>
    var objs: map<nat, Dev>
    var nextRef: nat
    var nodeInput: bool
    var issued: seq<Issue>
    var sent: seq<Out>
    var notes: seq<Note>
    var connects: seq<(string, string)>
    var status: Option<Status>
    var discovering: bool

    /** The node's state as a value. */
    function Snapshot(): Node
      reads this
    {
      Node(devices, objs, nextRef, nodeInput, issued, sent, notes, connects, status, discovering)
    }

    ghost predicate Valid()
      reads this
    {
      KasaRegistry.Valid(Snapshot())
    }

    /** The constructor: the configuration with its defaults, then either a
        placeholder for the configured device and its connection request, or
        the initial status. */
    constructor (raw: RawConfig)
      ensures cfg == ConfigOf(raw)
      ensures Snapshot() == Initial(cfg) && Valid()
    {
      cfg := ConfigOf(raw);
      devices, objs, nextRef, nodeInput := map[], map[], 0, false;
      issued, sent, notes, connects := [], [], [], [];
      status := None;
      discovering := ConfigOf(raw).discovery;
      new;
      InitialValid(cfg);
      if cfg.deviceId != "" {
        devices := map[cfg.deviceId := Placeholder([], false)];
        ConnectDevice(cfg.deviceId);
      } else {
        UpdateStatus();
      }
    }

    // -------------------------------------------------------------------------
    // Processing an input on a live device

    /** A query is requested; its answer is sent, or its failure logged. */
    method Query(r: nat, op: DeviceApi.Op, ok: bool)
      requires r in objs
      modifies this
      ensures Snapshot() == RunQuery(old(Snapshot()), r, op, ok)
    {
      issued := issued + [Issue(r, op)];
      if ok {
        sent := sent + [QueryOut(objs[r].shortId, op)];
      } else {
        notes := notes + [QueryError];
      }
    }

    /** handleCommand on a live device. */
    method Command(r: nat, cmd: string, ok: bool)
      requires r in objs
      modifies this
      ensures Snapshot() == KasaRegistry.RunCommand(old(Snapshot()), r, cmd, ok)
    {
      match HandleCommand(cmd)
      case Some(op) => Query(r, op, ok);
      case None => notes := notes + [Reported(InvalidCommand(cmd))];
    }

    /** The continuation of the control requests, then sendControlResult. */
    method SendControlResult(r: nat, ok: bool)
      requires r in objs
      modifies this
      ensures Snapshot() == ControlResult(old(Snapshot()), cfg, r, ok)
    {
      if !ok {
        if cfg.debug {
          notes := notes + [ControlError];
        }
        return;
      }
      match ControlRoute(cfg.payloadType, cfg.payload, cfg.passthru, nodeInput)
      case RunCommand(cmd) => Command(r, cmd, ok);
      case SendResult => sent := sent + [ControlOut(objs[r].shortId)];
      case SendNothing =>
    }

    /** The directives of one input, applied in order to a listener table
        (handleEventAction, once per directive). */
    static method ApplyEvents(t0: Table, directives: seq<JsValue>) returns (t: Table)
      ensures t == ApplyDirectives(t0, directives, true)
    {
      t := t0;
      var i := 0;
      while i < |directives|
        invariant 0 <= i <= |directives|
        invariant t == ApplyDirectives(t0, directives[..i], true)
      {
        ApplyDirectivesSnoc(t0, directives[..i], directives[i], true);
        assert directives[..i + 1] == directives[..i] + [directives[i]];
        t := ApplyDirective(t, directives[i], true);
        i := i + 1;
      }
      assert directives[..i] == directives;
    }

    /** processInput on device object `r`: the control requests are issued,
        the event directives are applied to the object's listeners, and then
        the query and the control continuation run, unless a TypeError
        escaped, which the result reports. */
    method ProcessInput(r: nat, msg: Msg, ok: bool) returns (thrown: bool)
      requires r in objs
      modifies this
      ensures (Snapshot(), thrown) == Process(old(Snapshot()), cfg, r, msg, ok)
    {
      ghost var n := Snapshot();
      var dev := objs[r];
      var out := KasaDispatch.ProcessInput(msg.payload, dev.info.caps);
      nodeInput := true;
      issued := issued + Issues(r, out.control);
      var table := ApplyEvents(dev.table, out.directives);
      objs := objs[r := dev.(table := table)];
      notes := notes + Notes(out.reports);
      ghost var n1 := Snapshot();
      assert n1 == n.(
        nodeInput := true,
        issued := n.issued + Issues(r, out.control),
        objs := n.objs[r := dev.(table := ApplyDirectives(dev.table, out.directives, true))],
        notes := n.notes + Notes(out.reports));
      if out.thrown {
        return true;
      }
      if out.query.Some? {
        Query(r, out.query.value, ok);
      }
      if |out.control| > 0 {
        SendControlResult(r, ok);
      }
      return false;
    }

    // -------------------------------------------------------------------------
    // The input handler, connectDevice and setupDevice

    /** The input handler: no target does nothing, a placeholder queues the
        input, a live device processes it, an unknown id gets a placeholder
        and a connection request. */
    method Input(msg: Msg, ok: bool)
      requires Valid()
      modifies this
      ensures Snapshot() == InputStep(old(Snapshot()), cfg, msg, ok) && Valid()
    {
      InputKeepsValid(Snapshot(), cfg, msg, ok);
      var id := TargetId(msg, cfg);
      if id == "" {
        return;
      }
      if id in devices {
        match devices[id]
        case Placeholder(q, c) =>
          devices := devices[id := Placeholder(q + [msg], c)];
        case Live(r) =>
          var thrown := ProcessInput(r, msg, ok);
          if thrown {
            notes := notes + [Uncaught];
          }
      } else {
        devices := devices[id := Placeholder([msg], false)];
        ConnectDevice(id);
      }
    }

    /** The synchronous part of connectDevice. */
    method ConnectDevice(id: string)
      modifies this
      ensures Snapshot() == ConnectBegin(old(Snapshot()), id)
    {
      if id !in devices {
        return;
      }
      match devices[id]
      case Live(_) =>
        notes := notes + [AlreadyConnected(id)];
      case Placeholder(q, _) =>
        devices := devices[id := Placeholder(q, true)];
        connects := connects + [SplitId(id)];
    }

    /** The part of setupDevice before the replay. */
    method InstallDevice(id: string, r: nat)
      requires r in objs
      modifies this
      ensures Snapshot() == Install(old(Snapshot()), cfg, id, r)
    {
      var dev := objs[r];
      var table := if cfg.events then SetupEventProxies(dev.table, dev.info.caps.deviceType) else dev.table;
      objs := objs[r := dev.(shortId := id, online := true, table := table, polling := dev.polling || cfg.events)];
      devices := devices[id := Live(r)];
    }

    /** setupDevice: install the object under `id`, replay the queue of the
        placeholder it replaces in order, and update the status unless the
        replay threw. */
    method SetupDevice(id: string, r: nat, ok: bool) returns (thrown: bool)
      requires r in objs
      modifies this
      ensures (Snapshot(), thrown) == KasaRegistry.SetupDevice(old(Snapshot()), cfg, id, r, ok)
    {
      var q := if id in devices && devices[id].Placeholder? then devices[id].queue else [];
      InstallDevice(id, r);
      ghost var n1 := Snapshot();
      thrown := false;
      var i := 0;
      while i < |q| && !thrown
        invariant 0 <= i <= |q|
        invariant r in objs
        invariant thrown ==> (Snapshot(), true) == Replay(n1, cfg, r, q, ok)
        invariant !thrown ==> Replay(n1, cfg, r, q, ok) == Replay(Snapshot(), cfg, r, q[i..], ok)
        decreases |q| - i, !thrown
      {
        ghost var before := Snapshot();
        assert q[i..][0] == q[i] && q[i..][1..] == q[i + 1..];
        ProcessKeepsObjs(before, cfg, r, q[i], ok);
        thrown := ProcessInput(r, q[i], ok);
        i := i + 1;
      }
      if !thrown {
        assert q[i..] == [];
        UpdateStatus();
      }
    }

    /** `client.getDevice` hands over a new device object. */
    method NewObject(info: DevInfo) returns (r: nat)
      modifies this
      ensures r == old(nextRef) && Snapshot() == Allocate(old(Snapshot()), info)
    {
      r := nextRef;
      objs := objs[r := NewDev(info)];
      nextRef := nextRef + 1;
    }

    /** A connection attempt succeeded with a new object from the library. */
    method ConnectOk(id: string, info: DevInfo, ok: bool)
      requires Valid()
      modifies this
      ensures Snapshot() == ConnectOkStep(old(Snapshot()), cfg, id, info, ok) && Valid()
    {
      ConnectOkValid(Snapshot(), cfg, id, info, ok);
      var r := NewObject(info);
      var thrown := SetupDevice(id, r, ok);
      if thrown && cfg.debug {
        notes := notes + [ConnectError(id)];
      }
    }

    /** A connection attempt failed. */
    method ConnectFail(id: string)
      requires Valid()
      modifies this
      ensures Snapshot() == ConnectFailStep(old(Snapshot()), cfg, id) && Valid()
    {
      if id in devices && devices[id].Placeholder? {
        devices := devices[id := devices[id].(connecting := false)];
      }
      if cfg.debug {
        notes := notes + [ConnectError(id)];
      }
    }

    // -------------------------------------------------------------------------
    // Discovery

    /** `device.online = state` and the OnlineEvents emission for the live
        device under `id`. */
    method SetOnline(id: string, state: bool)
      modifies this
      ensures Snapshot() == MarkOnline(old(Snapshot()), id, state)
    {
      if id in devices && devices[id].Live? && devices[id].ref in objs {
        var r' := devices[id].ref;
        var d := objs[r'].(online := state);
        objs := objs[r' := d];
        sent := sent + EventOuts(EmitCategory(d.table, d.shortId, "OnlineEvents"));
      }
    }

    /** emitOnlineEvents for one id. */
    method DiscoverOne(id: string, r: nat, state: bool, ok: bool) returns (thrown: bool)
      requires Valid() && r in objs
      modifies this
      ensures (Snapshot(), thrown) == DiscoverId(old(Snapshot()), cfg, id, r, state, ok)
    {
      if id !in devices {
        return false;
      }
      var e := devices[id];
      thrown := false;
      if e.Placeholder? && !e.connecting && state {
        thrown := SetupDevice(id, r, ok);
      }
      if !thrown {
        SetOnline(id, state);
      }
    }

    /** The ids of a discovered device: its host, then, for a parent, one id
        per child built from the last two characters of the child's id. */
    static method CollectIds(host: string, childId: string, children: seq<string>) returns (ids: seq<string>)
      ensures ids == DiscoveryIds(host, childId, children)
    {
      ids := [host];
      if childId == "" {
        var k := 0;
        while k < |children|
          invariant 0 <= k <= |children|
          invariant |ids| == k + 1 && ids[0] == host
          invariant forall j :: 1 <= j <= k ==> ids[j] == host + "/" + ChildSuffix(children[j - 1])
        {
          ids := ids + [host + "/" + ChildSuffix(children[k])];
          k := k + 1;
        }
      }
      ghost var d := DiscoveryIds(host, childId, children);
      assert |ids| == |d|;
      forall i | 1 <= i < |ids|
        ensures ids[i] == d[i]
      {
        assert d[(i - 1) + 1] == host + "/" + ChildSuffix(children[i - 1]);
      }
    }

    /** `ids.forEach(...)` of emitOnlineEvents: each id in order, until one
        throws. */
    method DiscoverAll(ids: seq<string>, r: nat, state: bool, ok: bool) returns (thrown: bool)
      requires Valid() && r in objs
      modifies this
      ensures (Snapshot(), thrown) == DiscoverIds(old(Snapshot()), cfg, ids, r, state, ok)
    {
      ghost var n0 := Snapshot();
      thrown := false;
      var i := 0;
      while i < |ids| && !thrown
        invariant 0 <= i <= |ids|
        invariant Valid() && r in objs
        invariant thrown ==> (Snapshot(), true) == DiscoverIds(n0, cfg, ids, r, state, ok)
        invariant !thrown ==> DiscoverIds(n0, cfg, ids, r, state, ok) == DiscoverIds(Snapshot(), cfg, ids[i..], r, state, ok)
        decreases |ids| - i, !thrown
      {
        assert ids[i..][0] == ids[i] && ids[i..][1..] == ids[i + 1..];
        DiscoverIdKeeps(Snapshot(), cfg, ids[i], r, state, ok);
        thrown := DiscoverOne(ids[i], r, state, ok);
        i := i + 1;
      }
      if !thrown {
        assert ids[i..] == [];
      }
    }

    /** A device-new, device-online or device-offline event of the library's
        discovery, for object `known` when the library has handed it over
        before, else for a new object. */
    method Discovery(known: Option<nat>, info: DevInfo, state: bool, ok: bool)
      requires Valid()
      modifies this
      ensures Snapshot() == DiscoveryStep(old(Snapshot()), cfg, known, info, state, ok) && Valid()
    {
      DiscoveryKeepsIds(Snapshot(), cfg, known, info, state, ok);
      var r := Target(known, info);
      var d := objs[r];
      var ids := CollectIds(d.info.host, d.info.childId, d.info.children);
      var thrown := DiscoverAll(ids, r, state, ok);
      if thrown {
        notes := notes + [Uncaught];
      } else {
        UpdateStatus();
      }
    }

    /** The object a discovery event is about. */
    method Target(known: Option<nat>, info: DevInfo) returns (r: nat)
      requires Valid()
      modifies this
      ensures (Snapshot(), r) == DiscoveryTarget(old(Snapshot()), known, info) && Valid() && r in objs
    {
      if known.Some? && known.value in objs {
        r := known.value;
      } else {
        r := NewObject(info);
      }
    }

    // -------------------------------------------------------------------------
    // Library events, updateStatus and close

    /** The polling-error proxies log once each in debug mode. */
    method LogPollingErrors(shortId: string, k: nat)
      modifies this
      ensures Snapshot() == old(Snapshot()).(notes := old(notes) + PollingErrors(shortId, k))
    {
      var j := 0;
      while j < k
        invariant 0 <= j <= k
        invariant Snapshot() == old(Snapshot()).(notes := old(notes) + PollingErrors(shortId, j))
      {
        assert PollingErrors(shortId, j + 1) == PollingErrors(shortId, j) + [PollingError(shortId)];
        notes := notes + [PollingError(shortId)];
        j := j + 1;
      }
    }

    /** A native event of device object `r`, after the library has updated
        its relay state and meter reading. */
    method NativeEvent(r: nat, name: string, relayOn: bool, meterText: string)
      requires Valid() && r in objs
      modifies this
      ensures Snapshot() == NativeEventStep(old(Snapshot()), cfg, r, name, relayOn, meterText) && Valid()
    {
      NativeEventKeepsValid(Snapshot(), cfg, r, name, relayOn, meterText);
      var d := objs[r].(info := objs[r].info.(relayOn := relayOn, meterText := meterText));
      var proxies := |Proxies(Listeners(d.table, name))|;
      objs := objs[r := d];
      sent := sent + EventOuts(EmitNative(d.table, d.shortId, name));
      if name == "emeter-realtime-update" && proxies > 0 && |devices| == 1 {
        UpdateStatus();
      } else if name == "polling-error" && proxies > 0 && cfg.debug {
        LogPollingErrors(d.shortId, proxies);
      }
    }

    /** The loop of updateStatus: it counts the online and the offline
        entries and remembers the last online one. */
    static method CountEntries(n: Node) returns (numOnline: nat, numOffline: nat, onlineId: string)
      ensures Counted(n, n.devices.Keys, numOnline, numOffline, onlineId)
    {
      numOnline, numOffline := 0, 0;
      onlineId := "";
      var todo := n.devices.Keys;
      ghost var seen: set<string> := {};
      while todo != {}
        invariant Counting(n, seen, todo, numOnline, numOffline, onlineId)
        decreases |todo|
      {
        var id :| id in todo;
        if IsOnline(n, id) {
          CountOnline(n, seen, todo, numOnline, numOffline, onlineId, id);
          numOnline := numOnline + 1;
          onlineId := id;
        } else {
          CountOffline(n, seen, todo, numOnline, numOffline, onlineId, id);
          numOffline := numOffline + 1;
        }
        seen := seen + {id};
        todo := todo - {id};
      }
    }

    /** updateStatus before it builds the status: the counts, and the state
        of the last online device, shown when it is the only one. Together
        they give the status the node should show. */
    static method CountStatus(n: Node) returns (numOnline: nat, numOffline: nat, single: string)
      ensures numOnline == |OnlineIds(n)|
      ensures numOnline + numOffline == |n.devices.Keys|
      ensures StatusOf(numOnline, numOffline, single) == StatusSpec(n)
    {
      var onlineId;
      numOnline, numOffline, onlineId := CountEntries(n);
      single := if numOnline == 1 then DevState(n.objs[n.devices[onlineId].ref]) else "";
      CountedAll(n, n.devices.Keys, numOnline, numOffline, onlineId, single);
    }

    /** updateStatus. */
    method UpdateStatus()
      modifies this
      ensures Snapshot() == WithStatus(old(Snapshot()))
    {
      var numOnline, numOffline, single := CountStatus(Snapshot());
      status := Some(StatusOf(numOnline, numOffline, single));
    }

    /** The device objects once `device.stopPolling()` has run for every
        entry that has it: the live ones. */
    static method StoppedObjects(devices: map<string, Entry>, objs: map<nat, Dev>) returns (os: map<nat, Dev>)
      ensures os == Stopped(objs, RefsOf(devices, devices.Keys))
    {
      os := objs;
      var todo := devices.Keys;
      ghost var seen: set<string> := {};
      while todo != {}
        invariant Stopping(devices, objs, seen, todo, os)
        decreases |todo|
      {
        var id :| id in todo;
        StopOne(devices, objs, seen, todo, os, id);
        if devices[id].Live? && devices[id].ref in os {
          var r := devices[id].ref;
          os := os[r := os[r].(polling := false)];
        }
        seen := seen + {id};
        todo := todo - {id};
      }
    }

    /** The close handler: polling stops on every stored device object
        (placeholders have nothing to stop), and discovery stops. */
    method Close()
      requires Valid()
      modifies this
      ensures Snapshot() == CloseStep(old(Snapshot())) && Valid()
    {
      CloseKeepsValid(Snapshot());
      assert RefsOf(devices, devices.Keys) == LiveRefs(Snapshot());
      objs := StoppedObjects(devices, objs);
      discovering := false;
    }
  }
  /** The objects stored under the ids of `ids`. */
  ghost function RefsOf(devices: map<string, Entry>, ids: set<string>): set<nat>
  {
    set id | id in ids && id in devices && devices[id].Live? :: devices[id].ref
  }

  /** The objects with polling stopped on those in `refs`. */
  ghost function Stopped(objs: map<nat, Dev>, refs: set<nat>): map<nat, Dev>
  {
    map r | r in objs :: if r in refs then objs[r].(polling := false) else objs[r]
  }

  /** The invariant of the loop of the close handler. */
  ghost predicate Stopping(devices: map<string, Entry>, objs: map<nat, Dev>, seen: set<string>, todo: set<string>, os: map<nat, Dev>)
  {
    todo !! seen && todo + seen == devices.Keys && os == Stopped(objs, RefsOf(devices, seen))
  }

  /** Stopping the entry `id`: its object, when it has one, stops polling. */
  lemma StopOne(devices: map<string, Entry>, objs: map<nat, Dev>, seen: set<string>, todo: set<string>, os: map<nat, Dev>, id: string)
    requires Stopping(devices, objs, seen, todo, os) && id in todo
    ensures var e := devices[id];
      var os' := if e.Live? && e.ref in os then os[e.ref := os[e.ref].(polling := false)] else os;
      Stopping(devices, objs, seen + {id}, todo - {id}, os')
    ensures |todo - {id}| < |todo|
  {
    RefsOfAdd(devices, seen, id);
    var e := devices[id];
    if e.Live? {
      if e.ref in os {
        StoppedAdd(objs, RefsOf(devices, seen), e.ref);
      } else {
        StoppedAbsent(objs, RefsOf(devices, seen), e.ref);
      }
    }
  }

  lemma StoppedAdd(objs: map<nat, Dev>, refs: set<nat>, r: nat)
    requires r in objs
    ensures var s := Stopped(objs, refs);
      Stopped(objs, refs + {r}) == s[r := s[r].(polling := false)]
  {
  }

  lemma StoppedAbsent(objs: map<nat, Dev>, refs: set<nat>, r: nat)
    requires r !in objs
    ensures Stopped(objs, refs + {r}) == Stopped(objs, refs)
  {
  }

  /** The loop of updateStatus has counted the entries of `seen`;
      `onlineId` is the last online one, if any. */
  ghost predicate Counted(n: Node, seen: set<string>, numOnline: nat, numOffline: nat, onlineId: string)
  {
    && seen <= n.devices.Keys
    && numOnline == |seen * OnlineIds(n)| && numOnline + numOffline == |seen|
    && (numOnline > 0 ==> onlineId in seen * OnlineIds(n))
  }

  /** What updateStatus tests of each entry: `dev.online`, which a
      placeholder does not have. */
  predicate IsOnline(n: Node, id: string)
    requires id in n.devices
  {
    n.devices[id].Live? && n.devices[id].ref in n.objs && n.objs[n.devices[id].ref].online
  }

  /** The invariant of the counting loop: `seen` and `todo` split the ids. */
  ghost predicate Counting(n: Node, seen: set<string>, todo: set<string>, numOnline: nat, numOffline: nat, onlineId: string)
  {
    todo !! seen && todo + seen == n.devices.Keys && Counted(n, seen, numOnline, numOffline, onlineId)
  }

  /** Counting an entry that is a live device and online. */
  lemma CountOnline(n: Node, seen: set<string>, todo: set<string>, numOnline: nat, numOffline: nat, onlineId: string, id: string)
    requires Counting(n, seen, todo, numOnline, numOffline, onlineId) && id in todo && IsOnline(n, id)
    ensures Counting(n, seen + {id}, todo - {id}, numOnline + 1, numOffline, id)
    ensures |todo - {id}| < |todo|
  {
    assert (seen + {id}) * OnlineIds(n) == seen * OnlineIds(n) + {id};
  }

  /** Counting an entry that is a placeholder or offline. */
  lemma CountOffline(n: Node, seen: set<string>, todo: set<string>, numOnline: nat, numOffline: nat, onlineId: string, id: string)
    requires Counting(n, seen, todo, numOnline, numOffline, onlineId) && id in todo && !IsOnline(n, id)
    ensures Counting(n, seen + {id}, todo - {id}, numOnline, numOffline + 1, onlineId)
    ensures |todo - {id}| < |todo|
  {
    assert (seen + {id}) * OnlineIds(n) == seen * OnlineIds(n);
  }

  /** Once every entry is counted, the counts give the status updateStatus
      should show. */
  lemma CountedAll(n: Node, seen: set<string>, numOnline: nat, numOffline: nat, onlineId: string, single: string)
    requires Counted(n, seen, numOnline, numOffline, onlineId) && seen == n.devices.Keys
    requires numOnline == 1 ==> single == DevState(n.objs[n.devices[onlineId].ref])
    ensures numOnline == |OnlineIds(n)| && numOnline + numOffline == |n.devices.Keys|
    ensures StatusOf(numOnline, numOffline, single) == StatusSpec(n)
  {
    assert seen * OnlineIds(n) == OnlineIds(n);
    if numOnline == 1 {
      SingletonMember(OnlineIds(n), onlineId);
    }
  }

  lemma RefsOfAdd(devices: map<string, Entry>, ids: set<string>, id: string)
    requires id in devices
    ensures RefsOf(devices, ids + {id})
         == RefsOf(devices, ids) + (if devices[id].Live? then {devices[id].ref} else {})
  {
  }

  /** A set with one element holds nothing but that element. */
  lemma SingletonMember<T>(s: set<T>, x: T)
    requires |s| == 1 && x in s
    ensures s == {x}
  {
    if s != {x} {
      var y :| y in s && y != x;
      SubsetCard({x, y}, s);
    }
  }
}
