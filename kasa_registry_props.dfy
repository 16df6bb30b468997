/** Properties of the kasa-plus registry steps (nodes/kasa-plus.js): how an
    input is routed to a placeholder or a live device, how a connection
    promotes a placeholder and replays its queue, what discovery may touch,
    and that every step keeps the registry valid. */
module KasaRegistryProps {
  import opened JsValues
  import opened KasaEvents
  import opened KasaDispatch
  import opened KasaStatus
  import opened KasaRegistry

  // ---------------------------------------------------------------------------
  // The input handler

  /** Without a topic and without a configured device, an input changes nothing. */
  lemma InputWithoutTarget(n: Node, cfg: Config, msg: Msg, ok: bool)
    requires Valid(n) && msg.topic == "" && cfg.deviceId == ""
    ensures InputStep(n, cfg, msg, ok) == n
  {
  }

  /** An unknown id gets one placeholder queueing the input, marked
      connecting, and exactly one connection request; nothing else changes. */
  lemma InputNewId(n: Node, cfg: Config, msg: Msg, ok: bool)
    requires Valid(n)
    requires TargetId(msg, cfg) != "" && TargetId(msg, cfg) !in n.devices
    ensures var id := TargetId(msg, cfg);
      InputStep(n, cfg, msg, ok)
        == n.(devices := n.devices[id := Placeholder([msg], true)], connects := n.connects + [SplitId(id)])
  {
  }

  /** An input for a placeholder is appended to its queue and starts no
      connection; nothing else changes. */
  lemma InputQueued(n: Node, cfg: Config, msg: Msg, ok: bool)
    requires Valid(n)
    requires TargetId(msg, cfg) != ""
    requires TargetId(msg, cfg) in n.devices && n.devices[TargetId(msg, cfg)].Placeholder?
    ensures var id := TargetId(msg, cfg);
      var e := n.devices[id];
      InputStep(n, cfg, msg, ok) == n.(devices := n.devices[id := Placeholder(e.queue + [msg], e.connecting)])
  {
    var id := TargetId(msg, cfg);
    match n.devices[id]
    case Placeholder(q, c) =>
      assert InputStep(n, cfg, msg, ok) == n.(devices := n.devices[id := Placeholder(q + [msg], c)]);
  }

  /** An input for a live device is processed at once: the registry entries
      and connection requests stay, and the node has now seen an input. */
  lemma InputLive(n: Node, cfg: Config, msg: Msg, ok: bool)
    requires Valid(n)
    requires TargetId(msg, cfg) != ""
    requires TargetId(msg, cfg) in n.devices && n.devices[TargetId(msg, cfg)].Live?
    ensures var n1 := InputStep(n, cfg, msg, ok);
      n1.devices == n.devices && n1.connects == n.connects && n1.nodeInput
  {
    var r := n.devices[TargetId(msg, cfg)].ref;
    ProcessKeepsObjs(n, cfg, r, msg, ok);
    var (n1, thrown) := Process(n, cfg, r, msg, ok);
    assert InputStep(n, cfg, msg, ok) == if thrown then n1.(notes := n1.notes + [Uncaught]) else n1;
  }

  // ---------------------------------------------------------------------------
  // connectDevice and setupDevice

  /** connectDevice ignores an absent id, only logs for a live entry, and
      otherwise marks the placeholder connecting and requests one connection. */
  lemma ConnectBeginCases(n: Node, id: string)
    ensures id !in n.devices ==> ConnectBegin(n, id) == n
    ensures id in n.devices && n.devices[id].Live? ==>
      ConnectBegin(n, id) == n.(notes := n.notes + [AlreadyConnected(id)])
    ensures id in n.devices && n.devices[id].Placeholder? ==>
      ConnectBegin(n, id) == n.(devices := n.devices[id := n.devices[id].(connecting := true)],
                                connects := n.connects + [SplitId(id)])
  {
  }

  /** A failed connection keeps the placeholder and its queue, no longer
      connecting; no other entry changes. */
  lemma ConnectFailKeepsPlaceholder(n: Node, cfg: Config, id: string)
    requires id in n.devices && n.devices[id].Placeholder?
    ensures var n1 := ConnectFailStep(n, cfg, id);
      && n1.devices == n.devices[id := Placeholder(n.devices[id].queue, false)]
      && n1.objs == n.objs && n1.sent == n.sent && n1.issued == n.issued && n1.connects == n.connects
  {
  }

  /** A successful connection stores a new device object under the id,
      online and named by the id; every other entry is unchanged and the
      registry stays valid. */
  lemma ConnectOkPromotes(n: Node, cfg: Config, id: string, info: DevInfo, ok: bool)
    requires Valid(n)
    ensures var n1 := ConnectOkStep(n, cfg, id, info, ok);
      && Valid(n1)
      && n1.devices == n.devices[id := Live(n.nextRef)]
      && n.nextRef !in n.objs && n.nextRef in n1.objs && n1.objs[n.nextRef].online && n1.objs[n.nextRef].shortId == id
      && (forall r :: r in n.objs ==> r in n1.objs && n1.objs[r] == n.objs[r])
      && n1.connects == n.connects
  {
    AllocateValid(n, info);
    var n0 := Allocate(n, info);
    SetupDeviceValid(n0, cfg, id, n.nextRef, ok);
  }

  lemma ConnectOkValid(n: Node, cfg: Config, id: string, info: DevInfo, ok: bool)
    requires Valid(n)
    ensures Valid(ConnectOkStep(n, cfg, id, info, ok))
  {
    ConnectOkPromotes(n, cfg, id, info, ok);
  }

  /** Replaying `q1 + q2` is replaying `q1` and then, unless it threw, `q2`:
      queued inputs are processed once each, in arrival order. */
  lemma {:induction false} ReplayAppend(n: Node, cfg: Config, r: nat, q1: seq<Msg>, q2: seq<Msg>, ok: bool)
    requires r in n.objs
    ensures var (n1, t1) := Replay(n, cfg, r, q1, ok);
      && r in n1.objs
      && Replay(n, cfg, r, q1 + q2, ok) == (if t1 then (n1, t1) else Replay(n1, cfg, r, q2, ok))
    decreases |q1|
  {
    if |q1| == 0 {
      assert q1 + q2 == q2;
    } else {
      ProcessKeepsObjs(n, cfg, r, q1[0], ok);
      var (m, t) := Process(n, cfg, r, q1[0], ok);
      assert (q1 + q2)[0] == q1[0];
      assert (q1 + q2)[1..] == q1[1..] + q2;
      if !t {
        ReplayAppend(m, cfg, r, q1[1..], q2, ok);
      }
    }
  }

  /** Replaying one input is processing it. */
  lemma ReplayOne(n: Node, cfg: Config, r: nat, msg: Msg, ok: bool)
    requires r in n.objs
    ensures Replay(n, cfg, r, [msg], ok) == Process(n, cfg, r, msg, ok)
  {
    assert [msg][1..] == [];
    ProcessKeepsObjs(n, cfg, r, msg, ok);
  }

  // ---------------------------------------------------------------------------
  // Discovery

  /** What discovery does to one id: an untracked id, a connecting
      placeholder and a placeholder on an offline event are untouched; an idle
      placeholder on an online event becomes the discovered object; a live
      entry takes the new online state. */
  lemma DiscoverIdEffects(n: Node, cfg: Config, id: string, r: nat, state: bool, ok: bool)
    requires Valid(n) && r in n.objs
    ensures id !in n.devices ==> DiscoverId(n, cfg, id, r, state, ok) == (n, false)
    ensures id in n.devices && n.devices[id].Placeholder? && (n.devices[id].connecting || !state) ==>
      DiscoverId(n, cfg, id, r, state, ok) == (n, false)
    ensures id in n.devices && n.devices[id].Live? ==>
      var n1 := DiscoverId(n, cfg, id, r, state, ok).0;
      var r' := n.devices[id].ref;
      n1.devices == n.devices && r' in n1.objs && n1.objs[r'].online == state
    ensures id in n.devices && n.devices[id].Placeholder? && !n.devices[id].connecting && state ==>
      var n1 := DiscoverId(n, cfg, id, r, state, ok).0;
      n1.devices == n.devices[id := Live(r)] && r in n1.objs && n1.objs[r].shortId == id
      && (!DiscoverId(n, cfg, id, r, state, ok).1 ==> n1.objs[r].online)
  {
    if id in n.devices && n.devices[id].Placeholder? && !n.devices[id].connecting && state {
      SetupDeviceValid(n, cfg, id, r, ok);
      var (n1, thrown) := SetupDevice(n, cfg, id, r, ok);
      MarkOnlineValid(n1, id, state);
    }
  }

  lemma {:induction false} DiscoverIdsKeeps(n: Node, cfg: Config, ids: seq<string>, r: nat, state: bool, ok: bool)
    requires Valid(n) && r in n.objs
    ensures var n1 := DiscoverIds(n, cfg, ids, r, state, ok).0;
      Valid(n1) && n1.objs.Keys == n.objs.Keys && n1.devices.Keys == n.devices.Keys
      && n1.nextRef == n.nextRef && n1.connects == n.connects
    decreases |ids|
  {
    if |ids| > 0 {
      DiscoverIdKeeps(n, cfg, ids[0], r, state, ok);
      var (n1, thrown) := DiscoverId(n, cfg, ids[0], r, state, ok);
      if !thrown {
        DiscoverIdsKeeps(n1, cfg, ids[1..], r, state, ok);
      }
    }
  }

  /** Discovery only touches ids already tracked: it adds and removes none,
      requests no connection, and keeps the registry valid. */
  lemma DiscoveryKeepsIds(n: Node, cfg: Config, known: Option<nat>, info: DevInfo, state: bool, ok: bool)
    requires Valid(n)
    ensures var n1 := DiscoveryStep(n, cfg, known, info, state, ok);
      Valid(n1) && n1.devices.Keys == n.devices.Keys && n1.connects == n.connects
  {
    AllocateValid(n, info);
    var (n0, r) := DiscoveryTarget(n, known, info);
    var d := n0.objs[r];
    var ids := DiscoveryIds(d.info.host, d.info.childId, d.info.children);
    DiscoverIdsKeeps(n0, cfg, ids, r, state, ok);
    AfterDiscoveryKeeps(DiscoverIds(n0, cfg, ids, r, state, ok));
  }

  lemma AfterDiscoveryKeeps(p: (Node, bool))
    ensures var n1 := AfterDiscovery(p);
      n1.devices == p.0.devices && n1.objs == p.0.objs && n1.nextRef == p.0.nextRef && n1.connects == p.0.connects
  {
  }

  /** Two idle placeholders promoted by one discovery of their parent both
      hold the parent's object, whose shortId is the id promoted last: the
      outlets share one object, and one listener table. */
  lemma DiscoveryAliasesOutlets(n: Node, cfg: Config, a: string, b: string, r: nat, ok: bool)
    requires Valid(n) && r in n.objs && a != b
    requires a in n.devices && n.devices[a] == Placeholder([], false)
    requires b in n.devices && n.devices[b] == Placeholder([], false)
    ensures var n1 := DiscoverIds(n, cfg, [a, b], r, true, ok).0;
      && a in n1.devices && n1.devices[a] == Live(r)
      && b in n1.devices && n1.devices[b] == Live(r)
      && r in n1.objs && n1.objs[r].shortId == b
  {
    PromoteIdle(n, cfg, a, r, ok);
    var n1 := DiscoverId(n, cfg, a, r, true, ok).0;
    PromoteIdle(n1, cfg, b, r, ok);
    var n2 := DiscoverId(n1, cfg, b, r, true, ok).0;
    assert [a, b][1..] == [b];
    assert [b][1..] == [];
    assert DiscoverIds(n, cfg, [a, b], r, true, ok) == DiscoverIds(n1, cfg, [b], r, true, ok);
    assert DiscoverIds(n1, cfg, [b], r, true, ok) == DiscoverIds(n2, cfg, [], r, true, ok);
  }

  /** An idle placeholder with nothing queued is promoted without a throw. */
  lemma PromoteIdle(n: Node, cfg: Config, id: string, r: nat, ok: bool)
    requires Valid(n) && r in n.objs
    requires id in n.devices && n.devices[id] == Placeholder([], false)
    ensures var (n1, thrown) := DiscoverId(n, cfg, id, r, true, ok);
      && !thrown && Valid(n1) && r in n1.objs
      && n1.devices == n.devices[id := Live(r)] && n1.objs[r].shortId == id
  {
    DiscoverIdEffects(n, cfg, id, r, true, ok);
    DiscoverIdKeeps(n, cfg, id, r, true, ok);
    assert Replay(Install(n, cfg, id, r), cfg, r, [], ok).1 == false;
  }

  // ---------------------------------------------------------------------------
  // updateStatus

  /** Placeholders count as offline: with no live entry, the status shows no
      device connected and every entry offline. */
  lemma PlaceholdersAreOffline(n: Node)
    requires forall id :: id in n.devices ==> n.devices[id].Placeholder?
    ensures StatusSpec(n) == StatusOf(0, |n.devices.Keys|, "")
  {
    assert OnlineIds(n) == {};
  }

  /** The status is red exactly when the node tracks nothing. */
  lemma StatusRedIffEmpty(n: Node)
    ensures StatusSpec(n).fill == "red" <==> n.devices == map[]
  {
    var on := OnlineIds(n);
    SubsetCard(on, n.devices.Keys);
    var single := if |on| == 1 then (var id :| id in on; DevState(n.objs[n.devices[id].ref])) else "";
    StatusLook(|on|, |n.devices.Keys| - |on|, single);
    if n.devices != map[] {
      var id :| id in n.devices;
      assert id in n.devices.Keys;
    }
  }

  // ---------------------------------------------------------------------------
  // Every step keeps the registry valid

  lemma InputKeepsValid(n: Node, cfg: Config, msg: Msg, ok: bool)
    requires Valid(n)
    ensures Valid(InputStep(n, cfg, msg, ok))
  {
    var id := TargetId(msg, cfg);
    if id != "" && id in n.devices && n.devices[id].Live? {
      ProcessValid(n, cfg, n.devices[id].ref, msg, ok);
    }
  }

  lemma NativeEventKeepsValid(n: Node, cfg: Config, r: nat, name: string, relayOn: bool, meterText: string)
    requires Valid(n) && r in n.objs
    ensures Valid(NativeEventStep(n, cfg, r, name, relayOn, meterText))
  {
  }

  lemma CloseKeepsValid(n: Node)
    requires Valid(n)
    ensures Valid(CloseStep(n))
    ensures forall r :: r in LiveRefs(n) && r in n.objs ==> !CloseStep(n).objs[r].polling
  {
  }

  lemma InitialValid(cfg: Config)
    ensures Valid(Initial(cfg))
    ensures cfg.deviceId != "" ==>
      (Initial(cfg).devices == map[cfg.deviceId := Placeholder([], true)]
       && Initial(cfg).connects == [SplitId(cfg.deviceId)])
    ensures cfg.deviceId == "" ==>
      (Initial(cfg).devices == map[]
       && Initial(cfg).status == Some(Status("red", "ring", "No devices connected")))
  {
    if cfg.deviceId == "" {
      var n := Node(map[], map[], 0, false, [], [], [], [], None, cfg.discovery);
      assert OnlineIds(n) == {};
    }
  }
}
