/** The node status the kasa-plus node shows (nodes/kasa-plus.js,
    updateStatus): a colour, a shape and a text computed from how many tracked
    entries are online and how many are not. */
module KasaStatus {
  import opened Strings
  import opened JsValues

  datatype Status = Status(fill: string, shape: string, text: string)

  /** The state shown for the one online device: ON or OFF from its relay,
      followed by its meter reading when it has an energy meter. The reading
      (power, voltage and current formatted as decimals) is an opaque text
      here. */
  function DeviceState(relayOn: bool, meter: Option<string>): (r: string)
    ensures StartsWith(r, if relayOn then "ON" else "OFF")
    ensures meter.None? <==> r == (if relayOn then "ON" else "OFF")
  {
    (if relayOn then "ON" else "OFF") + (match meter case Some(t) => " [" + t + "]" case None => "")
  }

  /** updateStatus once the entries are counted; `single` is the state of the
      online device, used only when exactly one is online. */
  function StatusOf(numOnline: nat, numOffline: nat, single: string): (s: Status)
  {
    var base :=
      if numOnline == 0 then Status("red", "ring", "No devices connected")
      else if numOnline == 1 then Status("green", "dot", "One device connected (" + single + ")")
      else Status("green", "dot", NatToString(numOnline) + " devices connected");
    if numOffline > 0 then Status("yellow", base.shape, base.text + " (" + NatToString(numOffline) + " offline)")
    else base
  }

  /** The colour and shape: red only when nothing is tracked, yellow whenever
      an entry is offline, green when every entry is online; a ring exactly
      when no device is online. */
  lemma StatusLook(numOnline: nat, numOffline: nat, single: string)
    ensures var s := StatusOf(numOnline, numOffline, single);
      && (s.fill == "red" <==> numOnline == 0 && numOffline == 0)
      && (s.fill == "yellow" <==> numOffline > 0)
      && (s.fill == "green" <==> numOnline > 0 && numOffline == 0)
      && (s.shape == "ring" <==> numOnline == 0)
      && (s.shape == "dot" <==> numOnline > 0)
  {
  }

  /** The text: which of the three forms is shown, and the offline suffix. */
  lemma StatusText(numOnline: nat, numOffline: nat, single: string)
    ensures var t := StatusOf(numOnline, numOffline, single).text;
      var suffix := if numOffline > 0 then " (" + NatToString(numOffline) + " offline)" else "";
      && (numOnline == 0 ==> t == "No devices connected" + suffix)
      && (numOnline == 1 ==> t == "One device connected (" + single + ")" + suffix)
      && (numOnline > 1 ==> t == NatToString(numOnline) + " devices connected" + suffix)
  {
  }

  /** With several devices online and none offline, the text tells the count:
      two different counts never show the same text. */
  lemma StatusTextShowsCount(a: nat, b: nat, single: string)
    requires a > 1 && b > 1
    requires StatusOf(a, 0, single).text == StatusOf(b, 0, single).text
    ensures a == b
  {
    var ta, tb := NatToString(a), NatToString(b);
    var tail := " devices connected";
    assert ta + tail == tb + tail;
    assert |ta| == |tb|;
    assert ta == (ta + tail)[..|ta|];
    assert tb == (tb + tail)[..|tb|];
    NatToStringInjective(a, b);
  }
}
