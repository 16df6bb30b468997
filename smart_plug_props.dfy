/** What the smart-plug node guarantees, stated about the step functions of
    SmartPlugs: the subscription list, the event gating, the layout of the
    instance array, the reconnect on an input while disconnected, and the
    invariant every handler keeps. */
module SmartPlugProps {
  import opened Strings
  import opened JsValues
  import opened DeviceApi
  import opened KasaStatus
  import opened SmartPlugs

  ghost predicate Distinct(xs: seq<nat>)
  {
    forall i, j :: 0 <= i < j < |xs| ==> xs[i] != xs[j]
  }

  /** In an array without repeats, the position findIndex reports for an
      element is where it stands. */
  lemma FindIndexDistinct(xs: seq<nat>, j: nat)
    requires Distinct(xs) && j < |xs|
    ensures FindIndex(xs, xs[j]) == j
  {
    var i := FindIndex(xs, xs[j]);
    assert xs[i] == xs[j];
  }

  /** In an array without repeats, the index each element reports and the
      element each index selects agree. */
  lemma DistinctIndices(xs: seq<nat>)
    requires Distinct(xs)
    ensures forall j :: 0 <= j < |xs| ==> FindIndex(xs, xs[j]) == j && At(xs, Num(j)) == Some(xs[j])
  {
    forall j | 0 <= j < |xs| ensures FindIndex(xs, xs[j]) == j && At(xs, Num(j)) == Some(xs[j]) {
      FindIndexDistinct(xs, j);
      AtIndex(xs, j);
    }
  }

  /** After a successful connect to a power strip with `k` outlets, the
      array is the parent followed by the outlets in key order, all distinct
      and the outlets monitored; so (DistinctIndices) the reported index of
      each device object is its position, and `payload.plug = j` selects
      exactly that object. */
  lemma StripLayout(p: Plug, k: nat)
    requires Valid(p)
    ensures var p1 := ConnectResolved(p, Some(k), true);
      && p1.instances == Some([p.nextRef] + seq(k, j => p.nextRef + 1 + j))
      && Distinct(p1.instances.value)
      && (forall j :: 1 <= j < |p1.instances.value| ==> p1.instances.value[j] in p1.polling)
      && Valid(p1)
  {
    var kids := seq(k, j => p.nextRef + 1 + j);
    var xs := [p.nextRef] + kids;
    assert forall j :: 1 <= j < |xs| ==> xs[j] == kids[j - 1];
  }

  /** A single plug (no children map): it is monitored itself and put in
      front of whatever the array holds; without the array, the failure
      handler runs instead. */
  lemma SinglePlugLayout(p: Plug)
    requires Valid(p)
    ensures var p1 := ConnectResolved(p, None, true);
      && (p.instances.Some? ==> p1.instances == Some([p.nextRef] + p.instances.value) && p.nextRef in p1.polling)
      && (p.instances.None? ==> p1.instances.None? && !p1.connected && p1.status == Status("red", "ring", "Disconnected"))
  {
  }

  /** connectClient sets the connected flag before the device is found: the
      array is still empty, so a power command arriving now calls a method of
      an undefined device and throws, issuing nothing. */
  lemma ConnectedBeforeResolved(p: Plug, v: JsValue)
    requires Classify(v).SetPower? || Classify(v).Toggle?
    ensures var p1 := ConnectClient(p);
      && p1.connected && p1.instances == Some([])
      && Dispatch(p1, v).2 && Dispatch(p1, v).0.issued == p.issued
  {
  }

  /** A node without an address registers no input handler: an input
      changes nothing. A configured node's input while disconnected issues
      nothing. When the array still exists, every instance is stopped and
      closed, 'Not Reachable' is logged and a new client is started, which
      sets the connected flag again at once; when the array is already
      deleted, stopAll throws and the node stays disconnected. */
  lemma DisconnectedInput(p: Plug, payload: JsValue, ok: bool)
    requires Valid(p) && !p.connected
    ensures var p1 := Input(p, payload, ok);
      && p1.issued == p.issued && p1.sent == p.sent && p1.action == p.action
      && (!p.configured ==> p1 == p)
      && (p.configured ==> p1.errors == p.errors + [ErrorText("Not Reachable")])
      && (p.configured && p.instances.Some? ==>
            && (forall r :: r in p.instances.value ==> r in p1.closed && r !in p1.polling)
            && p1.clients == p.clients + 1 && p1.connected && p1.instances == Some([]))
      && (p.configured && p.instances.None? ==> !p1.connected && p1.clients == p.clients && p1.status.text == "Disconnected")
  {
  }

  /** 'clearEvents' empties the subscription list and requests nothing. */
  lemma ClearEventsResets(p: Plug, ok: bool)
    requires Valid(p) && p.configured && p.connected
    ensures var p1 := Input(p, Str("clearEvents"), ok);
      p1.action == [] && p1.issued == p.issued && p1.sent == p.sent
  {
    assert Classify(Str("clearEvents")) == ClearEvents by {
      assert |Upper("clearEvents")| == 11;
    }
  }

  /** An event name enables its subscription once: the list grows by that
      name only when absent, and sending it again changes nothing. */
  lemma EventNameEnables(p: Plug, a: string, ok: bool)
    requires Valid(p) && p.configured && p.connected && a in EventActions
    ensures var p1 := Input(p, Str(a), ok);
      && p1.action == (if a in p.action then p.action else p.action + [a])
      && p1.issued == p.issued && p1.connected
      && Input(p1, Str(a), ok).action == p1.action
  {
    assert Classify(Str(a)) == Other(Str(a)) by {
      assert |Upper(a)| == |a| >= 14;
    }
  }

  /** A string that is neither a power word, a command nor an event name
      leaves the subscription list and the request log unchanged. */
  lemma UnknownStringIgnored(p: Plug, s: string, ok: bool)
    requires Valid(p) && p.configured && p.connected
    requires Classify(Str(s)).Other? && s !in EventActions
    ensures var p1 := Input(p, Str(s), ok);
      p1.action == p.action && p1.issued == p.issued && p1 == p
  {
    NormaliseWords(Str(s));
  }

  /** A device event is sent exactly when its subscription is enabled (and
      the array exists), carrying the position of the device in the array. */
  lemma DeviceEventGated(p: Plug, ref: nat, e: DeviceEvent)
    ensures var (p1, _) := DeviceEventStep(p, ref, e);
      && (p1.sent != p.sent <==> Gate(e) in p.action && p.instances.Some?)
      && (p1.sent != p.sent ==>
            p1.sent == p.sent + [EventOut(EventName(e), EventValue(e), FindIndex(p.instances.value, ref))])
      && p1.status == p.status && p1.action == p.action
  {
  }

  /** The event to subscription table. */
  lemma GateTable(e: DeviceEvent)
    ensures (e.PowerOn? || e.PowerOff?) <==> Gate(e) == "getPowerEvents"
    ensures e.PowerUpdate? <==> Gate(e) == "getPowerUpdateEvents"
    ensures (e.InUse? || e.NotInUse?) <==> Gate(e) == "getInUseEvents"
    ensures e.InUseUpdate? <==> Gate(e) == "getInUseUpdateEvents"
    ensures e.EmeterUpdate? <==> Gate(e) == "getMeterUpdateEvents"
    ensures Gate(e) != "getOnlineEvents"
  {
  }

  /** Online and offline events set the status whether or not they are
      subscribed; they are sent only when getOnlineEvents is enabled, with
      'online' or 'offline' as the state and the configured address as the
      device. */
  lemma OnlineEventStatus(p: Plug, host: string, online: bool)
    ensures var p1 := OnlineEventStep(p, host, online);
      && p1.status == (if online then Status("green", "dot", "Online") else Status("red", "ring", "Offline"))
      && (p1.sent != p.sent <==> "getOnlineEvents" in p.action)
      && ("getOnlineEvents" in p.action ==>
            p1.sent == p.sent + [OnlineOut(if online then "device-online" else "device-offline",
                                           if online then "online" else "offline", host)])
      && p1.connected == p.connected && p1.action == p.action
  {
  }

  // ---------------------------------------------------------------------------
  // The invariant

  lemma InitialValid(deviceIP: string)
    ensures Valid(Initial(deviceIP))
    ensures deviceIP == "" <==> !Initial(deviceIP).connected
    ensures deviceIP == "" <==> !Initial(deviceIP).configured
  {
  }

  lemma HandleConnectionErrorValid(p: Plug, error: Option<Failure>)
    requires Valid(p)
    ensures Valid(HandleConnectionError(p, error).0)
    ensures HandleConnectionError(p, error).0.issued == p.issued
  {
  }

  lemma ConnectResolvedValid(p: Plug, children: Option<nat>, ok: bool)
    requires Valid(p)
    ensures Valid(ConnectResolved(p, children, ok))
  {
    if ok && children.Some? {
      StripLayout(p, children.value);
    }
  }

  lemma {:induction false} SettleAllValid(p: Plug, qs: seq<Pending>, ok: bool)
    requires Valid(p)
    ensures Valid(SettleAll(p, qs, ok))
    ensures SettleAll(p, qs, ok).issued == p.issued
    decreases |qs|
  {
    if |qs| > 0 {
      SettleAllValid(p, qs[..|qs| - 1], ok);
      var p1 := SettleAll(p, qs[..|qs| - 1], ok);
      HandleConnectionErrorValid(p1, Some(Rejected(qs[|qs| - 1].op)));
      HandleConnectionErrorValid(p1, Some(ErrorText("TypeError")));
    }
  }

  lemma {:induction false} SendAllKeeps(p: Plug, device: Option<nat>, events: seq<JsValue>)
    requires p.instances.Some?
    ensures var r := SendAll(p, device, events);
      r.0.instances == p.instances && r.0.nextRef == p.nextRef && r.0.connected == p.connected
    decreases |events|
  {
    if |events| > 0 {
      SendAllKeeps(p, device, events[..|events| - 1]);
      var (p1, _, t1) := SendAll(p, device, events[..|events| - 1]);
      if !t1 {
        SendInputKeeps(p1, device, events[|events| - 1]);
      }
    }
  }

  lemma SendInputKeeps(p: Plug, device: Option<nat>, input: JsValue)
    requires p.instances.Some?
    ensures var r := SendInput(p, device, input);
      r.0.instances == p.instances && r.0.nextRef == p.nextRef && r.0.connected == p.connected
  {
  }

  lemma ObjectInputKeeps(p: Plug, payload: JsValue)
    requires p.instances.Some? && payload.Object?
    ensures var r := ObjectInput(p, payload);
      r.0.instances == p.instances && r.0.nextRef == p.nextRef && r.0.connected == p.connected
  {
    var m := payload.fields;
    if !("brightness" in m || "led" in m) {
      if "plug" in m {
        SendInputKeeps(p, At(p.instances.value, m["plug"]), if "state" in m then m["state"] else Undefined);
      } else if "state" in m {
        SendInputKeeps(p, First(p.instances.value), m["state"]);
      }
    }
  }

  lemma DispatchKeeps(p: Plug, payload: JsValue)
    requires p.instances.Some?
    ensures var r := Dispatch(p, payload);
      r.0.instances == p.instances && r.0.nextRef == p.nextRef && r.0.connected == p.connected
  {
    match payload
    case Object(m) =>
      ObjectInputKeeps(p, payload);
      var (p1, q1, t1) := ObjectInput(p, payload);
      if !t1 && "events" in m && m["events"].Array? {
        SendAllKeeps(p1, First(p.instances.value), m["events"].items);
      }
    case Array(items) => SendAllKeeps(p, First(p.instances.value), items);
    case _ => SendInputKeeps(p, First(p.instances.value), payload);
  }

  /** Every handler keeps the invariant. */
  lemma InputValid(p: Plug, payload: JsValue, ok: bool)
    requires Valid(p)
    ensures Valid(Input(p, payload, ok))
  {
    if !p.configured {
    } else if !p.connected {
      HandleConnectionErrorValid(p, Some(ErrorText("Not Reachable")));
    } else {
      DispatchKeeps(p, payload);
      var (p1, qs, _) := Dispatch(p, payload);
      SettleAllValid(p1, qs, ok);
    }
  }

  lemma EventsValid(p: Plug, ref: nat, e: DeviceEvent, host: string, online: bool)
    requires Valid(p)
    ensures Valid(DeviceEventStep(p, ref, e).0)
    ensures Valid(OnlineEventStep(p, host, online))
    ensures Valid(Close(p)) && !Close(p).connected && !Close(p).instances.Some?
  {
  }
}
