/** The input handler of either legacy node, by kind. */
module LegacyInputs {
  import opened JsValues
  import opened LegacyNodes
  import SmartBulbs
  import SmartPlugBaks

  function Input(kind: Kind, b: Legacy, payload: JsValue, reply: Reply): Legacy
    requires Valid(b)
  {
    match kind
    case Bulb => SmartBulbs.Input(b, payload, reply)
    case BakPlug => SmartPlugBaks.Input(b, payload, reply)
  }

  /** The synchronous part of the input handler while connected. */
  function Dispatch(kind: Kind, b: Legacy, payload: JsValue): (Legacy, seq<Pending>, bool)
    requires b.device.Some?
  {
    match kind
    case Bulb => SmartBulbs.Dispatch(b, payload)
    case BakPlug => SmartPlugBaks.Dispatch(b, payload)
  }
}
