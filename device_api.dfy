/** The operations the nodes request from a device object of the
    tplink-smarthome-api library. The library itself is not modelled: each node
    appends the operations it requests to a log, and whether they succeed is an
    input of the step that awaits them. */
module DeviceApi {
  import opened JsValues

  datatype Op =
    | TogglePowerState                           // device.togglePowerState()
    | SetPowerState(value: JsValue)              // device.setPowerState(value)
    | SetLightState(state: map<string, JsValue>) // device.lighting.setLightState(state)
    | SetBrightness(value: JsValue)              // device.dimmer.setBrightness(value)
    | SetLedState(value: JsValue)                // device.setLedState(value)
    | GetSysInfo                                 // device.getSysInfo()
    | GetCloudInfo                               // device.cloud.getInfo()
    | GetInfo                                    // device.getInfo()
    | GetMeterRealtime                           // device.emeter.getRealtime()
    | EraseStats                                 // device.emeter.eraseStats()

  /** An operation requested from the device object numbered `ref`. */
  datatype Request = Request(ref: nat, op: Op)

  /** An error a node reports: its own text, or the rejection of a request. */
  datatype Failure = ErrorText(text: string) | Rejected(op: Op)

  /** The requests for `ops`, in order, all to the device object `ref`. */
  function Requests(ref: nat, ops: seq<Op>): (rs: seq<Request>)
    ensures |rs| == |ops| && forall i :: 0 <= i < |ops| ==> rs[i] == Request(ref, ops[i])
  {
    seq(|ops|, i requires 0 <= i < |ops| => Request(ref, ops[i]))
  }
}
