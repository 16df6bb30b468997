# TP-Link Kasa nodes for Node-RED, modelled in Dafny

This project models the three Node-RED nodes of node-red-contrib-tplink-plus
that drive TP-Link Kasa plugs, power strips and bulbs through the
tplink-smarthome-api library, and proves what they promise.

- **kasa-plus** (`nodes/kasa-plus.js`) keeps a registry of devices for each
  node. An id (`<ip>` or `<ip>/<plug>`) maps to one of two things:
  - a *placeholder*, which queues the inputs that arrive before its
    connection;
  - a live device object, shared between ids when discovery finds the
    parent of several outlets.

  Input messages are classified as control, command or event directive
  (`processInput`, `validateNumber`, `handleCommand`). Native device events
  are re-emitted under node-level categories (`setupEventProxies`), which
  `start<X>`/`stop<X>`/`stopAllEvents` directives switch on and off
  (`handleEventAction`, `makeEventHandler`). The node status summarises how
  many devices are online (`updateStatus`).
- **smart-plug** (`nodes/smart-plug.js`) holds the list of enabled event
  subscriptions and an array of device instances (the parent, then the
  outlets of a strip). It routes inputs through `sendInput` and gates device
  events on the subscriptions (`sendEvent`).
- **smart-bulb** (`nodes/smart-bulb.js`) and the older plug node
  (`smart-plug.bak.js`) share one shape:
  - one device object and a connected flag;
  - an is-alive timer that reconnects and an event-polling timer;
  - a `|`-joined subscription string in the node context, tested by
    substring containment;
  - the light validators of the bulb.

How the model is built:

- Every handler of a node is one atomic step. The step functions
  (`KasaRegistry`, `SmartPlugs`, `LegacyNodes`, `SmartBulbs`,
  `SmartPlugBaks`) compute the node's next state as a value.
- The classes `KasaNodes.KasaNode`, `SmartPlugNodes.SmartPlug` and
  `LegacyNodeObjects.LegacyNode` hold the same state in fields that their
  methods update in place. Each method is proved to leave the object in the
  state the matching step function computes (`Snapshot()`). So every
  property proved about the step functions holds of the objects.
- Promises that a step creates settle afterwards, in creation order. One
  `ok` flag (or one `Reply`) per step says whether the library's promises
  in that step succeed.
- The library's device objects are numbered references. The node logs the
  operations it requests from them; the messages it sends and the errors
  it reports are logs too.
- JavaScript values (`JsValues.JsValue`) carry the coercions the code relies
  on:
  - `String(v)` and `Number(v)`;
  - loose and strict equality against booleans;
  - `parseInt`, property access and object spread.

  Numbers are integers.

Where the project's written description and the code disagree, the model
follows the code:

- kasa-plus has no `clearEvents` command. The string is reported as an
  invalid input (`KasaDispatch.ClearEventsIsInvalid`).
- A field whose capability the device lacks (brightness on a plain plug,
  for example) is skipped without any report
  (`KasaDispatch.BrightnessStep`).
- A string that starts with START or STOP in any case is routed to the
  event directives. The start/stop match itself is case-sensitive
  (`KasaDispatch.UpperCaseDirectiveRoutes`).
- smart-plug sets its connected flag before the device is found
  (`SmartPlugProps.ConnectedBeforeResolved`).
- The bulb's HSB range checks let a non-numeric value through
  (`BulbLights.HsbNonNumericPasses`).
- The bulb's loose `==` makes `1` and `'1'` power commands, while the older
  plug node throws on a number (`LegacyInputProps.PowerPayloads`).
- An object input to the bulb whose `events` is not an array throws after
  its requests are made (`LegacyInputProps.ObjectEvents`).

## Model

| member | source | states |
|---|---|---|
| KasaRegistry.ConfigOf | nodes/kasa-plus.js:10-19 | payload defaults to getInfo, payload type to info; events and discovery are on exactly when their interval parses to a non-zero number |
| KasaRegistry.PositiveIntervalIsSet | nodes/kasa-plus.js:13-14 | an interval written as a natural number turns its feature on exactly when it is not 0 |
| KasaRegistry.SplitId | nodes/kasa-plus.js:59-61 | the host and plug handed to getDevice contain no '/' |
| KasaRegistry.DiscoveryIds | nodes/kasa-plus.js:110-114 | the host first, then, only for a parent that is not itself a child, one `<host>/<n>` id per child, in order |
| KasaRegistry.DiscoveryIdSplits | nodes/kasa-plus.js:59-61 | a discovery id splits back into the host and the child's number, so connecting to it addresses the same outlet |
| KasaRegistry.Install | nodes/kasa-plus.js:78-89 | the installed object stays allocated |
| KasaRegistry.InstallValid | nodes/kasa-plus.js:78-89 | installing stores the object under the id, online and named by the id, touching no other object, and keeps the registry valid |
| KasaRegistry.SetupDeviceValid | nodes/kasa-plus.js:78-95 | after setupDevice (with its replay) the id holds the object, online and named by the id; other objects and connection requests are unchanged |
| KasaRegistry.ReplayValid | nodes/kasa-plus.js:88-90 | replaying a queue changes only the listener table of the target object and the logs, and keeps the registry valid |
| KasaRegistry.ProcessKeepsObjs | nodes/kasa-plus.js:170-273 | processing an input changes no registry entry, no other object and nothing of the target but its listeners, and records that an input was seen |
| KasaRegistry.ProcessValid | nodes/kasa-plus.js:170-273 | processing an input keeps the registry valid |
| KasaRegistry.ProcessTable | nodes/kasa-plus.js:229-240 | the only listener change of processInput is applying its event directives in order, with the corrected reading of handleEventAction (see Findings) |
| KasaRegistry.ProcessAsWritten | nodes/kasa-plus.js:229-240 | handleEventAction as written throws on an input exactly when one of its directives matches nothing; when every directive is a start or a stop, it leaves the same table as the model |
| KasaRegistry.RunCommandLogsOnly | nodes/kasa-plus.js:309-342 | handleCommand changes nothing but the logs |
| KasaRegistry.ControlResultLogsOnly | nodes/kasa-plus.js:267-304 | the continuation of the control requests changes nothing but the logs |
| KasaRegistry.MarkOnlineValid | nodes/kasa-plus.js:124-127 | setting a device's online state keeps the registry, entries and status, and stays valid |
| KasaRegistry.DiscoverIdKeeps | nodes/kasa-plus.js:116-129 | handling one discovered id keeps the set of ids, the objects and the connection requests |
| KasaRegistry.DiscoveryTarget | nodes/kasa-plus.js:132-134 | the object of a discovery event is allocated and the registry entries are unchanged |
| KasaRegistry.AllocateValid | nodes/kasa-plus.js:64 | a new device object gets a fresh reference and leaves every existing object alone |
| KasaRegistry.PollingErrors | nodes/kasa-plus.js:370-372 | one polling-error log line per listening proxy |
| KasaRegistry.ProxiesKeepTable | nodes/kasa-plus.js:348-373 | installing the proxies keeps a listener table well formed and free of the raw-sysinfo form |
| KasaRegistryProps.InputWithoutTarget | nodes/kasa-plus.js:143-145 | without a topic and a configured device an input changes nothing |
| KasaRegistryProps.InputNewId | nodes/kasa-plus.js:154-160 | an unknown id gets one placeholder queueing the input and exactly one connection request; nothing else changes |
| KasaRegistryProps.InputQueued | nodes/kasa-plus.js:149-150 | an input for a placeholder is appended to its queue, with no connection request |
| KasaRegistryProps.InputLive | nodes/kasa-plus.js:151-153 | an input for a live device is processed at once and keeps entries and connection requests |
| KasaRegistryProps.ConnectBeginCases | nodes/kasa-plus.js:45-61 | connectDevice ignores an absent id, only logs for a live entry, otherwise marks the placeholder connecting and requests one connection |
| KasaRegistryProps.ConnectFailKeepsPlaceholder | nodes/kasa-plus.js:68-74 | a failed connection keeps the placeholder and its queue, no longer connecting |
| KasaRegistryProps.ConnectOkPromotes | nodes/kasa-plus.js:63-67 | a successful connection stores a new object under the id, online and named by it; every other object is unchanged; the registry stays valid |
| KasaRegistryProps.ConnectOkValid | nodes/kasa-plus.js:63-67 | a successful connection keeps the registry valid |
| KasaRegistryProps.ReplayAppend | nodes/kasa-plus.js:90 | replaying `q1 + q2` is replaying `q1`, then `q2` unless an input of `q1` threw a TypeError (a null hsb): queued inputs are processed once, in arrival order |
| KasaRegistryProps.ReplayOne | nodes/kasa-plus.js:90 | replaying one queued input is processing it |
| KasaRegistryProps.DiscoverIdEffects | nodes/kasa-plus.js:116-128 | untracked ids, connecting placeholders and offline events leave the id alone; an idle placeholder on an online event becomes the object; a live entry takes the new state |
| KasaRegistryProps.DiscoverIdsKeeps | nodes/kasa-plus.js:116-129 | discovery over a list of ids keeps the set of ids, the objects and the connection requests |
| KasaRegistryProps.DiscoveryKeepsIds | nodes/kasa-plus.js:110-134 | a discovery event adds and removes no id, requests no connection and keeps the registry valid |
| KasaRegistryProps.AfterDiscoveryKeeps | nodes/kasa-plus.js:130 | the status refresh after discovery keeps entries, objects and connection requests |
| KasaRegistryProps.DiscoveryAliasesOutlets | nodes/kasa-plus.js:113-123 | two idle outlet placeholders promoted by one discovery of their parent share one object, whose shortId is the id promoted last |
| KasaRegistryProps.PromoteIdle | nodes/kasa-plus.js:119-123 | an idle placeholder with an empty queue is promoted to the discovered object without a throw |
| KasaRegistryProps.PlaceholdersAreOffline | nodes/kasa-plus.js:421-425 | with no live entry the status shows no device connected and every entry offline |
| KasaRegistryProps.StatusRedIffEmpty | nodes/kasa-plus.js:417-456 | the status is red exactly when the node tracks nothing |
| KasaRegistryProps.InputKeepsValid | nodes/kasa-plus.js:142-161 | the input handler keeps the registry valid |
| KasaRegistryProps.NativeEventKeepsValid | nodes/kasa-plus.js:348-373 | a native device event keeps the registry valid |
| KasaRegistryProps.CloseKeepsValid | nodes/kasa-plus.js:482-492 | close stops polling on every stored object and keeps the registry valid |
| KasaRegistryProps.InitialValid | nodes/kasa-plus.js:459-469 | with a configured device: one connecting placeholder and one connection request; otherwise no entry and the red "No devices connected" status |
| KasaStatus.DeviceState | nodes/kasa-plus.js:439-445 | the shown state starts with ON or OFF and has a meter suffix exactly when the device has a meter |
| KasaStatus.StatusLook | nodes/kasa-plus.js:428-454 | red exactly when nothing is tracked, yellow exactly when an entry is offline, green otherwise; ring exactly when none is online |
| KasaStatus.StatusText | nodes/kasa-plus.js:433-453 | the text names no device, the one device's state, or the count, followed by the offline count when there is one |
| KasaStatus.StatusTextShowsCount | nodes/kasa-plus.js:447-448 | two different online counts never show the same text |
| KasaNodes.KasaNode.constructor | nodes/kasa-plus.js:8-19 | the configuration with its defaults, and the initial registry state |
| KasaNodes.KasaNode.Query | nodes/kasa-plus.js:331-341 | performs the query step: the answer is sent or the failure logged |
| KasaNodes.KasaNode.Command | nodes/kasa-plus.js:309-342 | performs handleCommand |
| KasaNodes.KasaNode.SendControlResult | nodes/kasa-plus.js:279-304 | performs sendControlResult |
| KasaNodes.KasaNode.ApplyEvents | nodes/kasa-plus.js:232-240 | applies the directives one after the other with the corrected reading, as ApplyDirectives does |
| KasaNodes.KasaNode.ProcessInput | nodes/kasa-plus.js:170-273 | performs processInput in place, with the TypeError of a null hsb reported; its directives use the corrected reading |
| KasaNodes.KasaNode.Input | nodes/kasa-plus.js:142-161 | performs the input step and keeps the registry valid; directives use the corrected reading |
| KasaNodes.KasaNode.ConnectDevice | nodes/kasa-plus.js:45-61 | performs the synchronous part of connectDevice |
| KasaNodes.KasaNode.InstallDevice | nodes/kasa-plus.js:78-89 | performs setupDevice up to its replay |
| KasaNodes.KasaNode.SetupDevice | nodes/kasa-plus.js:78-95 | performs setupDevice with its replay in queue order; directives use the corrected reading |
| KasaNodes.KasaNode.NewObject | nodes/kasa-plus.js:64 | allocates the next device object |
| KasaNodes.KasaNode.ConnectOk | nodes/kasa-plus.js:63-67 | performs a successful connection and keeps the registry valid |
| KasaNodes.KasaNode.ConnectFail | nodes/kasa-plus.js:68-74 | performs a failed connection and keeps the registry valid |
| KasaNodes.KasaNode.SetOnline | nodes/kasa-plus.js:124-127 | sets the online state and emits OnlineEvents |
| KasaNodes.KasaNode.DiscoverOne | nodes/kasa-plus.js:116-128 | performs emitOnlineEvents for one id |
| KasaNodes.KasaNode.CollectIds | nodes/kasa-plus.js:111-114 | builds exactly the ids of DiscoveryIds |
| KasaNodes.KasaNode.DiscoverAll | nodes/kasa-plus.js:116-129 | performs emitOnlineEvents over its ids, stopping at a throw |
| KasaNodes.KasaNode.Discovery | nodes/kasa-plus.js:110-134 | performs a device-new/online/offline event and keeps the registry valid |
| KasaNodes.KasaNode.Target | nodes/kasa-plus.js:132-134 | finds or allocates the object a discovery event is about |
| KasaNodes.KasaNode.LogPollingErrors | nodes/kasa-plus.js:370-372 | logs one polling error per proxy |
| KasaNodes.KasaNode.NativeEvent | nodes/kasa-plus.js:348-373 | runs every listener of a native event and keeps the registry valid |
| KasaNodes.KasaNode.CountEntries | nodes/kasa-plus.js:418-426 | the loop counts every entry as online or offline and remembers the last online one |
| KasaNodes.KasaNode.CountStatus | nodes/kasa-plus.js:417-454 | the counts are the online ids and all ids, and the status built from them is the one updateStatus should show |
| KasaNodes.KasaNode.UpdateStatus | nodes/kasa-plus.js:417-457 | sets the status StatusSpec describes |
| KasaNodes.KasaNode.StoppedObjects | nodes/kasa-plus.js:487-490 | polling is stopped on exactly the objects stored under some id |
| KasaNodes.KasaNode.Close | nodes/kasa-plus.js:482-492 | performs close and keeps the registry valid |
| KasaNodes.StopOne | nodes/kasa-plus.js:488 | stopping one entry stops its object when it has one |
| KasaNodes.CountOnline | nodes/kasa-plus.js:422-424 | an online entry raises the online count and becomes the remembered device |
| KasaNodes.CountOffline | nodes/kasa-plus.js:425 | a placeholder or an offline device raises the offline count |
| KasaNodes.CountedAll | nodes/kasa-plus.js:417-454 | once every entry is counted, the counts give the status updateStatus should show |
| KasaDispatch.PowerWordOfIff | nodes/kasa-plus.js:182-188 | the three tests accept exactly the listed words in any mix of cases, in both directions |
| KasaDispatch.PowerOps | nodes/kasa-plus.js:182-187 | a power word requests exactly one operation, anything else none |
| KasaDispatch.ValidateNumberMeaning | nodes/kasa-plus.js:472-479 | a number passes exactly inside the inclusive range; undefined always passes; a decimal string passes as its number does; NaN never passes |
| KasaDispatch.NumberValidates | nodes/kasa-plus.js:473 | a number passes exactly inside the range, and undefined passes |
| KasaDispatch.DecimalValidates | nodes/kasa-plus.js:473 | a decimal string passes exactly as its number does |
| KasaDispatch.NaNFails | nodes/kasa-plus.js:473 | a non-numeric string and an object never pass |
| KasaDispatch.RangeBoundaries | nodes/kasa-plus.js:195-219 | the ends of the brightness, temperature and hue ranges pass and the values just outside them fail |
| KasaDispatch.StateStep | nodes/kasa-plus.js:181-189 | an absent state does nothing; a power word requests its operation; anything else reports an invalid state |
| KasaDispatch.BrightnessStep | nodes/kasa-plus.js:192-202 | brightness is requested exactly when present, supported and valid, through the light state on a bulb; reported exactly when present, supported and invalid |
| KasaDispatch.TemperatureStep | nodes/kasa-plus.js:205-211 | colour temperature is requested exactly when present, supported and valid; reported exactly when present, supported and invalid |
| KasaDispatch.HsbStep | nodes/kasa-plus.js:214-222 | null or undefined hsb on a colour device throws; otherwise a copy of hsb is requested exactly when hue, saturation and brightness all validate |
| KasaDispatch.LedStep | nodes/kasa-plus.js:225-227 | the LED is set exactly when present on a plug; nothing is reported |
| KasaDispatch.SplitDirectives | nodes/kasa-plus.js:234 | the pieces of the `|`-split, in order |
| KasaDispatch.EventsField | nodes/kasa-plus.js:230-236 | no events field gives no directive |
| KasaDispatch.HandleCommand | nodes/kasa-plus.js:309-329 | exactly the five commands request a query, each one of the five operations |
| KasaDispatch.HandleCommandInjective | nodes/kasa-plus.js:311-326 | different commands request different queries |
| KasaDispatch.CommandOutcome | nodes/kasa-plus.js:309-329 | a command requests a query or reports an invalid input, never both, and nothing else |
| KasaDispatch.Classification | nodes/kasa-plus.js:179-265 | before any directive is applied, only objects throw (a null hsb) and only strings query; an array is all directives; a boolean sets the power; null, undefined and numbers are exactly the invalid payloads and do nothing else |
| KasaDispatch.StringRouting | nodes/kasa-plus.js:243-256 | a string is a power word, else a directive string split into directives, else a command; the routing throws for no string (whether handleEventAction then throws is KasaRegistry.ProcessAsWritten) |
| KasaDispatch.StartDirectiveRoutes | nodes/kasa-plus.js:252-253 | `start<X>` reaches the event table as one directive |
| KasaDispatch.UpperCaseDirectiveRoutes | nodes/kasa-plus.js:252 | `STARTPowerEvents` is routed to the directives |
| KasaDispatch.ClearEventsIsInvalid | nodes/kasa-plus.js:255 | clearEvents is reported as an invalid command and does nothing else |
| KasaDispatch.RejectedFieldIsIgnored | nodes/kasa-plus.js:181-211 | a rejected state, brightness or temperature adds one report and leaves every other request and directive as without it |
| KasaDispatch.NullHsbThrows | nodes/kasa-plus.js:214-219 | null or undefined hsb throws after the state, brightness and temperature requests, before the events |
| KasaDispatch.ControlRoute | nodes/kasa-plus.js:282-303 | the info payload type re-runs the configured command; otherwise a message is sent exactly when no input was seen or passthru is on |
| KasaEvents.LineHead | nodes/kasa-plus.js:379 | what `(.+)` captures: the longest prefix without a line terminator |
| KasaEvents.LineHeadWhole | nodes/kasa-plus.js:379 | a one-line string is captured whole |
| KasaEvents.ParseDirectiveString | nodes/kasa-plus.js:377-379 | reading a spelled directive gives it back; stopAllEvents is never read as a stop |
| KasaEvents.MakeEventHandler | nodes/kasa-plus.js:393-410 | the raw-sysinfo form is chosen exactly for InfoEvents before any input |
| KasaEvents.Proxies | nodes/kasa-plus.js:348-373 | the proxy listeners of a list, which exist exactly when it holds one |
| KasaEvents.RemoveForwards | nodes/kasa-plus.js:377 | an event keeps listeners exactly when it had a proxy |
| KasaEvents.ApplyDirectivesSnoc | nodes/kasa-plus.js:232 | directives apply one after the other |
| KasaEvents.ProxiesIdempotent | nodes/kasa-plus.js:377 | keeping the proxies twice is keeping them once |
| KasaEvents.DirectiveIdempotent | nodes/kasa-plus.js:376-388 | applying a directive twice is applying it once |
| KasaEvents.StartRegistersOnce | nodes/kasa-plus.js:383-384 | `start<X>` adds one output listener exactly when X has none, and changes nothing else |
| KasaEvents.StopRemovesAll | nodes/kasa-plus.js:385-386 | `stop<X>` removes every listener of X and nothing else |
| KasaEvents.StopAllLeavesNoOutput | nodes/kasa-plus.js:377 | stopAllEvents leaves no output listener and keeps each proxy |
| KasaEvents.ApplyDirectiveKeepsNoSysInfo | nodes/kasa-plus.js:394 | after an input no raw-sysinfo listener is registered |
| KasaEvents.ApplyDirectiveKeepsWellFormed | nodes/kasa-plus.js:376-388 | an event is listed only while it has listeners |
| KasaEvents.ApplyDirectivesKeep | nodes/kasa-plus.js:232-240 | both table invariants survive any list of directives after an input |
| KasaEvents.ProxyNamesDistinct | nodes/kasa-plus.js:349-370 | the proxied native names are distinct |
| KasaEvents.AddListener | nodes/kasa-plus.js:384 | `device.on` appends to one name's listeners and changes no other |
| KasaEvents.AddProxiesEffect | nodes/kasa-plus.js:348-373 | one proxy is appended to exactly the proxied names |
| KasaEvents.SetupEventProxies | nodes/kasa-plus.js:348-373 | every proxied name gets one more listener, a proxy; no other name changes |
| KasaEvents.CategoriesAreNotNative | nodes/kasa-plus.js:350-368 | a category a proxy emits is not itself proxied |
| KasaEvents.FreshProxies | nodes/kasa-plus.js:348-373 | a fresh device has one proxy per native name and no listener on any category |
| KasaEvents.FreshProxiesShape | nodes/kasa-plus.js:348-373 | a fresh device's table is well formed and holds proxies only |
| KasaEvents.ProxyNamesMembers | nodes/kasa-plus.js:365 | the meter update is proxied; category names are not |
| KasaEvents.PowerProxy | nodes/kasa-plus.js:349-350 | every device type other than a bulb gets a proxy on power-on |
| KasaEvents.EmitThroughProxy | nodes/kasa-plus.js:350-368 | a native event with only a proxy sends what its category's output listeners send |
| KasaEvents.StartStopScenario | nodes/kasa-plus.js:376-388 | `start<cat>` makes one native event produce one message and `stop<cat>` silences it again |
| KasaEvents.MeterTarget | nodes/kasa-plus.js:365-366 | the meter update is re-emitted as MeterEvents |
| KasaEvents.PowerTarget | nodes/kasa-plus.js:350-351 | power-on is re-emitted as PowerEvents |
| KasaEvents.MeterEventsScenario | nodes/kasa-plus.js:365-388 | on a fresh device, startMeterEvents turns a reading into one message and stopMeterEvents silences it |
| KasaEvents.AsWrittenAgrees | nodes/kasa-plus.js:376-388 | where the code as written neither throws nor meets stopAllEvents, it agrees with the corrected reading |
| KasaEvents.AsWrittenThrowsIff | nodes/kasa-plus.js:376-381 | as written, a directive list throws exactly when one of its directives matches nothing; stopAllEvents never throws |
| KasaEvents.AsWrittenAgreesAll | nodes/kasa-plus.js:376-388 | on a list of start and stop directives only, the code as written and the corrected reading leave the same table |
| KasaEvents.NoStartStop | nodes/kasa-plus.js:379 | a string starting with neither start nor stop matches nothing |
| KasaEvents.NonMatchingDirectiveThrows | nodes/kasa-plus.js:379-381 | as written a non-matching string throws; corrected it changes nothing |
| KasaEvents.ThrowDropsLaterDirectives | nodes/kasa-plus.js:253 | as written `foo` then `startPowerEvents` in one directive string registers nothing; corrected it registers PowerEvents |
| KasaEvents.StartAfterNoOp | nodes/kasa-plus.js:253 | a start directive after one that changes nothing registers its event |
| KasaEvents.ApplyTwo | nodes/kasa-plus.js:253 | two directives apply in order, both as written and corrected |
| KasaEvents.RemoveForwardsOfProxies | nodes/kasa-plus.js:377 | a table of proxies alone is unchanged by stopAllEvents corrected |
| KasaEvents.StopAllAsWrittenSilencesProxies | nodes/kasa-plus.js:377 | as written, stopAllEvents then `start<cat>` never reports the native event; corrected it reports it once |
| KasaEvents.StopAllAsWrittenPlug | nodes/kasa-plus.js:377 | the same on a fresh plug with PowerEvents |
| ActionStrings.Recognised | nodes/smart-bulb.js:173-176 | exactly the known names the input lists as strings, no more items than the input |
| ActionStrings.WellShapedOccurrence | nodes/smart-bulb.js:217-221 | one subscription name occurs in another only when they are equal |
| ActionStrings.JoinOccurrence | nodes/smart-bulb.js:179 | a name without the separator occurs in a join only inside one of its parts |
| ActionStrings.JoinContainsParts | nodes/smart-bulb.js:179 | each part of a join occurs in it |
| ActionStrings.StoredCheck | nodes/smart-bulb.js:217-221 | checkAction on the stored string is exactly membership in the stored list |
| ActionStrings.ClearEventsEnablesNothing | nodes/smart-bulb.js:203 | the stored 'clearEvents' enables no subscription |
| ActionStrings.MeterEventsShape | nodes/smart-bulb.js:143 | getMeterEvents is well shaped |
| ActionStrings.InfoEventsShape | nodes/smart-bulb.js:143 | getInfoEvents is well shaped |
| ActionStrings.PowerUpdateEventsShape | nodes/smart-bulb.js:143 | getPowerUpdateEvents is well shaped |
| ActionStrings.InUseEventsShape | smart-plug.bak.js:81 | getInUseEvents is well shaped |
| ActionStrings.OnlineEventsShape | nodes/smart-bulb.js:143 | getOnlineEvents is well shaped |
| LegacyNodes.EventActionsShape | nodes/smart-bulb.js:143 | every subscription name of either node is well shaped |
| LegacyNodes.SubscribeEnables | nodes/smart-bulb.js:173-182 | after subscribing, a subscription is enabled exactly when its name was in the list |
| LegacyNodes.Words | nodes/smart-bulb.js:206 | the pieces compared by the filter are exactly the pieces of the split |
| LegacyProps.InitialState | nodes/smart-bulb.js:14-25 | without an address: unconfigured (no handler), nothing started; otherwise configured, one client and the is-alive timer |
| LegacyProps.ConnectResolvedState | nodes/smart-bulb.js:28-43 | success installs a new device object and starts polling; failure only marks the node unreachable |
| LegacyProps.IsAliveReconnects | nodes/smart-bulb.js:44-55 | the timer changes nothing unless it is set; set, it reconnects exactly when disconnected; connected, it pings, and a failed ping disconnects |
| LegacyProps.PollTickRequests | nodes/smart-bulb.js:56-75 | the timer changes nothing unless it is set; set and connected: system info exactly when getInfoEvents is on, then the meter exactly when getMeterEvents is on; set and disconnected: nothing and polling stops |
| LegacyProps.PollConnected | nodes/smart-bulb.js:56-75 | a poll tick of a set timer on a connected node is its requests followed by their replies settling |
| LegacyProps.KeepsTrans | nodes/smart-bulb.js:222-237 | what replies keep composes |
| LegacyProps.SysInfoSettledKeeps | nodes/smart-bulb.js:222-237 | a getSysInfo reply keeps the device, clients and timers and requests nothing |
| LegacyProps.SysInfoNowKeeps | nodes/smart-bulb.js:222-237 | sendDeviceSysInfo keeps the device, clients and timers |
| LegacyProps.LightSettledKeeps | nodes/smart-bulb.js:79-138 | a light validator's reply keeps the device, clients and timers |
| LegacyProps.SettleKeeps | nodes/smart-bulb.js:222-300 | any reply keeps the device, clients and timers; query replies request nothing |
| LegacyProps.SettleAllKeeps | nodes/smart-bulb.js:222-300 | the same for replies settling in order |
| LegacyProps.MeterShowsLastState | nodes/smart-bulb.js:222-237 | after getSysInfo the remembered state follows the on/off flag, and a meter reading then shows that state |
| LegacyProps.SysInfoShape | smart-plug.bak.js:179-194 | system info without light_state throws and disconnects the bulb; the plug reads relay_state and stays connected |
| LegacyProps.EventGated | nodes/smart-bulb.js:256-286 | a device event is sent exactly when its handler is registered and its subscription on; nothing else changes |
| LegacyProps.InUseOnlyForPlug | smart-plug.bak.js:236-244 | the bulb never reports in-use; the plug reports it exactly when subscribed |
| LegacyProps.CloseStops | nodes/smart-bulb.js:305-309 | close stops both timers and disconnects |
| LegacyInputProps.ConnectedInput | nodes/smart-bulb.js:141-214 | a connected input is its synchronous requests, then its promises settling in order |
| LegacyInputProps.DisconnectedInput | nodes/smart-bulb.js:142 | a node without an address has no input handler, so an input changes nothing; a configured node while disconnected requests nothing, logs the input error and shows the unreachable status |
| LegacyInputProps.DispatchKeeps | nodes/smart-bulb.js:146-213 | the synchronous part only extends the request log and sets the subscriptions |
| LegacyInputProps.BulbObjectKeeps | nodes/smart-bulb.js:146-183 | the same for a bulb object input |
| LegacyInputProps.BulbStringKeeps | nodes/smart-bulb.js:185-212 | the same for a bulb string input |
| LegacyInputProps.BakObjectKeeps | smart-plug.bak.js:84-117 | the same for a plug object input |
| LegacyInputProps.BakScalarKeeps | smart-plug.bak.js:120-169 | the same for any other plug input |
| LegacyInputProps.InputValid | nodes/smart-bulb.js:141-214 | an input keeps the node valid, its device and its client count |
| LegacyInputProps.InputAction | nodes/smart-bulb.js:173-182 | no reply changes the subscriptions an input set |
| LegacyInputProps.ObjectEvents | nodes/smart-bulb.js:173-182 | an events array enables exactly the listed subscriptions; a non-array throws after the requests |
| LegacyInputProps.BulbStringEvents | nodes/smart-bulb.js:205-212 | any other bulb string enables exactly the subscriptions among its pieces and requests nothing |
| LegacyInputProps.BakStringEvents | smart-plug.bak.js:162-168 | the same for the plug |
| LegacyInputProps.ClearEvents | nodes/smart-bulb.js:203 | clearEvents is stored as it is, enables nothing and requests nothing |
| LegacyInputProps.BakClearEvents | smart-plug.bak.js:154-156 | the plug stores clearEvents as it is |
| LegacyInputProps.BulbBrightnessEffect | nodes/smart-bulb.js:79-89 | brightness:n on a dimmable bulb: inside [1,100] it is requested between two info requests; above 100 only the error is reported |
| LegacyInputProps.BrightnessInput | nodes/smart-bulb.js:188-192 | brightness:n is one info request and its validator's reply |
| LegacyInputProps.SettleOne | nodes/smart-bulb.js:169-171 | settling one promise is settling it |
| LegacyInputProps.BrightnessSettled | nodes/smart-bulb.js:79-89 | the brightness validator's effect once the info arrives |
| LegacyInputProps.LightThenInfo | nodes/smart-bulb.js:190-192 | a light change then the info request keeps the node connected when the info is readable |
| LegacyInputProps.PowerPayloads | nodes/smart-bulb.js:185-187 | the bulb switches on for 1; the plug throws on 1 and sends the power words as booleans |
| LegacyInputProps.SwitchToggles | nodes/smart-bulb.js:201 | 'switch' toggles without awaiting or reporting |
| LegacyInputProps.ObjectRequests | nodes/smart-bulb.js:146-171 | an object input requests power first (a toggle exactly for 'toggle'); the bulb adds one info request per light change; the state is reported last |
| BulbLights.BrightnessRule | nodes/smart-bulb.js:79-89 | brightness is requested exactly when the bulb is dimmable and the value lies in [1,100] |
| BulbLights.TemperatureRule | nodes/smart-bulb.js:91-101 | colour temperature is requested exactly when supported and in [2700,6500] |
| BulbLights.HsbRule | nodes/smart-bulb.js:111-138 | HSB is requested exactly when the bulb has colour, the value has all three keys and none is out of range; the state carries them and color_temp 0 |
| BulbLights.HsbNonNumericPasses | nodes/smart-bulb.js:116-121 | a non-numeric hue passes the range checks and is requested |
| BulbCommands.BulbWord | nodes/smart-bulb.js:185 | a string starting with a letter is routed by its text |
| BulbCommands.AfterColonOfNat | nodes/smart-bulb.js:189 | the number after the colon of `w:n` is read back as n |
| BulbCommands.BulbBrightnessCommand | nodes/smart-bulb.js:188-192 | 'brightness:n' asks for the info first and leaves the brightness n to its reply |
| BulbCommands.BrightnessRoute | nodes/smart-bulb.js:188-192 | any string containing 'brightness' is a brightness command: one info request, then the validator with the number after its colon |
| BulbCommands.ColonNat | nodes/smart-bulb.js:188-189 | `w:n` contains w and reads back n after its colon |
| BulbCommands.CommandNone | nodes/smart-bulb.js:198-204 | a string starting with no command letter is no command |
| BulbCommands.BulbClearEvents | nodes/smart-bulb.js:203 | the bulb stores clearEvents as it is and requests nothing |
| SmartBulbs.LightOps | nodes/smart-bulb.js:79-138 | each light change starts with a getSysInfo request |
| SmartBulbs.LightReplies | nodes/smart-bulb.js:157-167 | one awaited validator per light change, in order |
| LegacyNodeObjects.LegacyNode.constructor | nodes/smart-bulb.js:14-25 | the initial node |
| LegacyNodeObjects.LegacyNode.ConnectClient | nodes/smart-bulb.js:28-31 | performs the connect request |
| LegacyNodeObjects.LegacyNode.HandleConnectionError | nodes/smart-bulb.js:295-300 | performs handleConnectionError |
| LegacyNodeObjects.LegacyNode.ConnectResolved | nodes/smart-bulb.js:32-42 | performs the connect's settlement and keeps the node valid |
| LegacyNodeObjects.LegacyNode.IsAliveTick | nodes/smart-bulb.js:44-55 | performs an is-alive tick (nothing once the timer is cleared) and keeps the node valid |
| LegacyNodeObjects.LegacyNode.Ask | nodes/smart-bulb.js:222-255 | logs one request |
| LegacyNodeObjects.LegacyNode.AskAll | nodes/smart-bulb.js:146-167 | logs the requests in order |
| LegacyNodeObjects.LegacyNode.SysInfoSettled | nodes/smart-bulb.js:222-237 | performs the getSysInfo reply |
| LegacyNodeObjects.LegacyNode.SysInfoNow | nodes/smart-bulb.js:222-237 | performs sendDeviceSysInfo |
| LegacyNodeObjects.LegacyNode.LightSettled | nodes/smart-bulb.js:79-138 | performs a light validator's reply |
| LegacyNodeObjects.LegacyNode.Settle | nodes/smart-bulb.js:222-304 | performs one reply |
| LegacyNodeObjects.LegacyNode.SettleEach | nodes/smart-bulb.js:169-171 | performs the replies in order |
| LegacyNodeObjects.LegacyNode.SetEvents | nodes/smart-bulb.js:173-182 | an array sets the subscriptions; anything else throws and changes nothing |
| LegacyNodeObjects.LegacyNode.BulbObject | nodes/smart-bulb.js:146-183 | performs a bulb object input |
| LegacyNodeObjects.LegacyNode.BakObject | smart-plug.bak.js:84-117 | performs a plug object input |
| LegacyNodeObjects.LegacyNode.Command | nodes/smart-bulb.js:198-204 | performs a shared command |
| LegacyNodeObjects.LegacyNode.BulbString | nodes/smart-bulb.js:188-212 | performs a bulb string input |
| LegacyNodeObjects.LegacyNode.BulbDispatch | nodes/smart-bulb.js:146-213 | performs the bulb's synchronous input |
| LegacyNodeObjects.LegacyNode.BakDispatch | smart-plug.bak.js:84-169 | performs the plug's synchronous input |
| LegacyNodeObjects.LegacyNode.Input | nodes/smart-bulb.js:141-214 | performs the input handler and keeps the node valid |
| LegacyNodeObjects.LegacyNode.PollTick | nodes/smart-bulb.js:56-75 | performs a poll tick (nothing once the timer is cleared) and keeps the node valid |
| LegacyNodeObjects.LegacyNode.Event | nodes/smart-bulb.js:256-286 | performs a device event |
| LegacyNodeObjects.LegacyNode.Close | nodes/smart-bulb.js:305-309 | performs close |
| SmartPlugs.NormaliseWords | nodes/smart-plug.js:110-114 | TRUE/ON in any ASCII case become true, FALSE/OFF false, everything else is kept |
| SmartPlugs.ClassifyPower | nodes/smart-plug.js:115-122 | booleans and power words set the power; only the exact 'toggle' toggles |
| SmartPlugs.Enable | nodes/smart-plug.js:172-174 | the list is kept, or grows by one event name it lacked |
| SmartPlugs.EnableSpec | nodes/smart-plug.js:172-174 | enabling is idempotent, enables exactly event names, and keeps the list free of duplicates |
| SmartPlugs.At | nodes/smart-plug.js:89 | an indexed instance is in the array |
| SmartPlugs.AtIndex | nodes/smart-plug.js:89 | a number or a decimal string selects that position |
| SmartPlugs.FindIndex | nodes/smart-plug.js:146 | the first position of the element, or -1 exactly when absent |
| SmartPlugs.Members | nodes/smart-plug.js:268-271 | the elements of the array |
| SmartPlugs.SendAll | nodes/smart-plug.js:94-101 | sending the events keeps the instance array |
| SmartPlugs.ObjectOps | nodes/smart-plug.js:67-86 | brightness or led gives at least one request |
| SmartPlugs.Gate | nodes/smart-plug.js:184-241 | every device event is gated by a known subscription |
| SmartPlugProps.FindIndexDistinct | nodes/smart-plug.js:146 | in an array without repeats, findIndex reports an element's own position |
| SmartPlugProps.DistinctIndices | nodes/smart-plug.js:89-156 | in an array without repeats, the reported index and the indexed element agree |
| SmartPlugProps.StripLayout | nodes/smart-plug.js:36-47 | a strip gives the parent then the outlets in key order, all distinct and monitored |
| SmartPlugProps.SinglePlugLayout | nodes/smart-plug.js:44-48 | a single plug is monitored and put first; without the array the failure handler runs |
| SmartPlugProps.ConnectedBeforeResolved | nodes/smart-plug.js:28-50 | the flag is set while the array is empty, so a power command throws and requests nothing |
| SmartPlugProps.DisconnectedInput | nodes/smart-plug.js:65 | a node without an address has no input handler, so an input changes nothing; a configured node while disconnected: nothing requested, 'Not Reachable' logged, every instance stopped and a new client started; without the array stopAll throws |
| SmartPlugProps.ClearEventsResets | nodes/smart-plug.js:161-163 | clearEvents empties the list and requests nothing |
| SmartPlugProps.EventNameEnables | nodes/smart-plug.js:172-174 | an event name is added once; sending it again changes nothing |
| SmartPlugProps.UnknownStringIgnored | nodes/smart-plug.js:172-174 | any other string changes nothing |
| SmartPlugProps.DeviceEventGated | nodes/smart-plug.js:183-241 | an event is sent exactly when subscribed and the array exists, with the device's position |
| SmartPlugProps.GateTable | nodes/smart-plug.js:184-241 | which subscription gates each device event |
| SmartPlugProps.OnlineEventStatus | nodes/smart-plug.js:242-255 | online/offline set the status always and are sent exactly when subscribed, as a record whose state is 'online' or 'offline' and whose device is the configured address |
| SmartPlugProps.InitialValid | nodes/smart-plug.js:14-26 | the initial node is valid; it is connected, and has its handlers, exactly when an address is configured |
| SmartPlugProps.HandleConnectionErrorValid | nodes/smart-plug.js:258-264 | the error handler keeps the node valid and requests nothing |
| SmartPlugProps.ConnectResolvedValid | nodes/smart-plug.js:32-48 | the connect's settlement keeps the node valid |
| SmartPlugProps.SettleAllValid | nodes/smart-plug.js:123-170 | replies keep the node valid and request nothing |
| SmartPlugProps.SendAllKeeps | nodes/smart-plug.js:94-101 | sending events keeps the array, references and flag |
| SmartPlugProps.SendInputKeeps | nodes/smart-plug.js:107-176 | sendInput keeps the array, references and flag |
| SmartPlugProps.ObjectInputKeeps | nodes/smart-plug.js:66-92 | an object input keeps the array, references and flag |
| SmartPlugProps.DispatchKeeps | nodes/smart-plug.js:66-104 | an input keeps the array, references and flag |
| SmartPlugProps.InputValid | nodes/smart-plug.js:64-105 | an input keeps the node valid |
| SmartPlugProps.EventsValid | nodes/smart-plug.js:183-277 | events keep the node valid; close disconnects and deletes the array |
| SmartPlugNodes.SmartPlug.constructor | nodes/smart-plug.js:6-26 | the initial node |
| SmartPlugNodes.SmartPlug.ConnectClient | nodes/smart-plug.js:28-52 | performs connectClient |
| SmartPlugNodes.SmartPlug.StopEach | nodes/smart-plug.js:268-271 | every instance stops polling and is closed |
| SmartPlugNodes.SmartPlug.StopAll | nodes/smart-plug.js:265-274 | performs stopAll |
| SmartPlugNodes.SmartPlug.HandleConnectionError | nodes/smart-plug.js:258-264 | performs handleConnectionError |
| SmartPlugNodes.SmartPlug.Monitor | nodes/smart-plug.js:53-62 | a new device object, polled for events |
| SmartPlugNodes.SmartPlug.Outlets | nodes/smart-plug.js:37-43 | the outlets in key order |
| SmartPlugNodes.SmartPlug.ConnectResolved | nodes/smart-plug.js:32-48 | performs the connect's settlement and keeps the node valid |
| SmartPlugNodes.SmartPlug.SendInput | nodes/smart-plug.js:107-176 | performs sendInput |
| SmartPlugNodes.SmartPlug.SendEach | nodes/smart-plug.js:94-101 | performs sendInput for each event |
| SmartPlugNodes.SmartPlug.ObjectInput | nodes/smart-plug.js:66-92 | performs an object input |
| SmartPlugNodes.SmartPlug.Dispatch | nodes/smart-plug.js:66-104 | performs the synchronous input |
| SmartPlugNodes.SmartPlug.Settle | nodes/smart-plug.js:123-170 | performs one reply |
| SmartPlugNodes.SmartPlug.SettleEach | nodes/smart-plug.js:87 | performs the replies in order |
| SmartPlugNodes.SmartPlug.Input | nodes/smart-plug.js:64-105 | performs the input handler (none on a node without an address) and keeps the node valid |
| SmartPlugNodes.SmartPlug.DeviceEvent | nodes/smart-plug.js:183-241 | performs sendEvent for a device |
| SmartPlugNodes.SmartPlug.OnlineEvent | nodes/smart-plug.js:242-255 | performs sendEvent for online/offline: state 'online' or 'offline', device the configured address |
| SmartPlugNodes.SmartPlug.Close | nodes/smart-plug.js:275-277 | performs close |
| DeviceApi.Requests | nodes/smart-bulb.js:146-167 | one request per operation, in order |
| Strings.UpperEqualsIff | nodes/smart-plug.js:111-113 | comparing the upper-cased string with a word accepts exactly its ASCII case variants |
| Strings.JoinSplit | nodes/smart-bulb.js:206 | joining a split gives the string back |
| Strings.SplitJoin | nodes/smart-bulb.js:179 | splitting a join of separator-free parts gives the parts back |
| JsValues.StringToNumberOfNat | nodes/kasa-plus.js:473 | a decimal rendering converts back to its number |
| JsValues.WordIsNaN | nodes/kasa-plus.js:473 | a word is NaN |
| JsValues.ParseIntOfNat | nodes/smart-bulb.js:189 | parseInt reads a decimal rendering back |
| JsValues.Indexed | nodes/kasa-plus.js:221 | spreading an array keeps each item under its index |

## Left out

- The tplink-smarthome-api library, the network, timers and the clock are
  inputs. Whether a step's promises succeed is one flag or one `Reply`.
  Timestamps (`moment`) are not part of the messages.
- Concurrency: each handler is one atomic step, and the promises a step
  creates settle in creation order before the next handler. Other
  interleavings of replies and log orders are not modelled.
- Numbers are integers. Fractions, exponents and Infinity are NaN when a
  string is converted.
- The meter text (`numeral` formatting of power, voltage and current) is an
  opaque string input.
- KasaNodes.KasaNode.SendControlResult: the json, date, bool and num payload
  types only build the message. Its payload value (JSON.parse, Date.now) is
  not modelled, and a JSON.parse throw is not modelled.
- `deviceIP === null` in smart-plug.js and the bulb is not modelled: an
  absent address is the empty string.
- The library's own `startPolling` on a bulb, and the interval leaked when
  polling restarts, are not modelled. Polling is one flag.
- The `client.on('error')` log of kasa-plus and its `/smarthome/devices`
  admin endpoint are not modelled (HTTP).
- SmartPlugs.ObjectOps: states only that brightness or led yields at least
  one request. The exact list is what SmartPlugNodes.SmartPlug.ObjectInput
  performs.
- KasaDispatch.EventsField: states only the case without events. Arrays and
  strings are covered by KasaRegistry.ProcessTable and
  KasaDispatch.StringRouting.
- KasaRegistry.Process: applies the corrected handleEventAction of the
  Findings. A directive that matches nothing is ignored, where the code as
  written throws a TypeError that skips the control result. stopAllEvents
  keeps the proxies, where the code as written removes them.
  KasaRegistry.ProcessAsWritten states exactly where the two agree.
- KasaRegistry.Replay: a directive that matches nothing does not stop the
  replay. In the code as written, its TypeError abandons the rest of the
  queue.
- KasaRegistry.ProcessTable: the table is the corrected one. The TypeError
  at kasa-plus.js:379 and the proxy removal at kasa-plus.js:377 are not in
  it.
- KasaRegistryProps.ReplayAppend: only a null hsb counts as a throw. A
  directive TypeError does not (corrected reading).
- KasaNodes.KasaNode.ApplyEvents: applies the corrected ApplyDirectives,
  not the throwing handleEventAction as written.
- KasaNodes.KasaNode.ProcessInput: a directive TypeError is not reported as
  thrown, and stopAllEvents keeps the proxies (corrected reading).
- KasaNodes.KasaNode.Input: inherits the corrected directive reading of
  KasaRegistry.Process.
- KasaNodes.KasaNode.SetupDevice: its replay does not stop at a directive
  TypeError (corrected reading).
- KasaDispatch.Classification: `thrown` covers only the steps of
  processInput before handleEventAction. The TypeError that arrays and
  directive strings can raise inside handleEventAction is stated by
  KasaRegistry.ProcessAsWritten.
- KasaDispatch.StringRouting: states that the routing of a string never
  throws. Whether handleEventAction then throws on the pieces is stated by
  KasaRegistry.ProcessAsWritten.
- SmartPlugs.NormaliseWords: upper-cases ASCII letters only. JavaScript's
  toUpperCase also folds some other characters into ASCII letters: the
  ligature ff gives FF, and long s gives S. So the source turns "o\uFB00" and
  "fal\u017Fe" into power words, and the model keeps them as strings. The
  full Unicode case table is not modelled.
- Strings.UpperEqualsIff: accepts exactly the ASCII case variants of a word
  (Strings.Upper folds ASCII only). Inputs that match only through
  non-ASCII case folding, such as the ligature ff in "off", are not
  covered; the same gap holds for SmartPlugs.Normalise.
- Handlers after close: the model still lets a closed smart-plug node take
  an input, as the source's handler would. The Node-RED runtime, which
  stops delivering messages to a closed node, is not modelled. The legacy
  nodes' timers do nothing once close has cleared them.

## Findings

| source | as written | input that shows it | evidently intended | confidence | as-written member | corrected member |
|---|---|---|---|---|---|---|
| nodes/kasa-plus.js:379-381 | `let [match, startStop, event] = cmd.match(...)` destructures null when nothing matches, so it throws a TypeError before the `if (!match) return` guard, and the rest of the directive list is dropped | the string payload made of `foo` and `startPowerEvents` joined by a vertical bar (or `STARTPowerEvents`) | a directive that does not match is ignored, as the guard on line 381 says | not executed | KasaEvents.NonMatchingDirectiveThrows | KasaEvents.ThrowDropsLaterDirectives |
| nodes/kasa-plus.js:377 | `device.removeAllListeners()` with no argument also removes the proxies that setupEventProxies installed, so after stopAllEvents no later `start<X>` ever reports a device event | `stopAllEvents`, then `startPowerEvents`, then a power-on of a plug | stopAllEvents removes the output listeners only, and the proxies stay | not executed | KasaEvents.StopAllAsWrittenSilencesProxies | KasaEvents.StopAllLeavesNoOutput |
