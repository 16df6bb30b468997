/** The light-state validators of the smart-bulb node (nodes/smart-bulb.js,
    setBrightness, setTemperature and setHSB): once the bulb's system
    information is known, each either yields the light state to request or
    the error text the node reports. */
module BulbLights {
  import opened JsValues
  import KasaDispatch

  /** A light change an input asks for. */
  datatype Light = Brightness(value: JsValue) | Temperature(value: JsValue) | Hsb(value: JsValue)

  datatype LightResult = Issue(state: map<string, JsValue>) | Reject(error: string)

  /** `v < lo || v > hi` with JavaScript's comparison: NaN is never out of
      range. */
  predicate OutOfRange(v: JsValue, lo: int, hi: int)
  {
    match ToNumber(v)
    case Some(n) => n < lo || n > hi
    case None => false
  }

  /** Reading `info.<key>`: reading a field of null or undefined throws. */
  function Flag(info: JsValue, key: string): Option<JsValue>
  {
    Prop(info, key)
  }

  function BrightnessRequest(info: JsValue, b: JsValue): LightResult
  {
    match Flag(info, "is_dimmable")
    case None => Reject("TypeError")
    case Some(d) =>
      if d != Num(1) then Reject("Changing Brightness is not supported!")
      else if NumberWithin(b, 1, 100) then Issue(map["brightness" := b])
      else Reject("Brightness Should be between 1 and 100.")
  }

  function TemperatureRequest(info: JsValue, t: JsValue): LightResult
  {
    match Flag(info, "is_variable_color_temp")
    case None => Reject("TypeError")
    case Some(d) =>
      if d != Num(1) then Reject("Changing Temperature is not supported!")
      else if NumberWithin(t, 2700, 6500) then Issue(map["color_temp" := t])
      else Reject("Temperature Should be between 2700 and 6500.")
  }

  function HsbRequest(info: JsValue, hsb: JsValue): LightResult
  {
    match Flag(info, "is_color")
    case None => Reject("TypeError")
    case Some(c) =>
      if c != Num(1) then Reject("Setting a HSB is not supported for this light!")
      else if !IsPlainObject(hsb) then Reject("HSB not properly formated")
      else if "hue" !in hsb.fields then Reject("Key hue is missing in HSB")
      else if "saturation" !in hsb.fields then Reject("Key saturation is missing in HSB")
      else if "brightness" !in hsb.fields then Reject("Key brightness is missing in HSB")
      else
        var hue, saturation, brightness := hsb.fields["hue"], hsb.fields["saturation"], hsb.fields["brightness"];
        if OutOfRange(hue, 0, 360) then Reject("Hue outside of range 0-360")
        else if OutOfRange(saturation, 0, 100) then Reject("Saturation outside of range 0-100")
        else if OutOfRange(brightness, 1, 100) then Reject("Brightness outside of range 1-100")
        else Issue(map["hue" := hue, "saturation" := saturation, "brightness" := brightness, "color_temp" := Num(0)])
  }

  function LightRequest(info: JsValue, light: Light): LightResult
  {
    match light
    case Brightness(v) => BrightnessRequest(info, v)
    case Temperature(v) => TemperatureRequest(info, v)
    case Hsb(v) => HsbRequest(info, v)
  }

  /** A brightness change is requested exactly when the bulb is dimmable and
      the value lies in [1, 100]; that is kasa-plus's validateNumber range
      test, without its acceptance of undefined. */
  lemma BrightnessRule(info: JsValue, b: JsValue)
    ensures BrightnessRequest(info, b).Issue? <==> Flag(info, "is_dimmable") == Some(Num(1)) && NumberWithin(b, 1, 100)
    ensures BrightnessRequest(info, b).Issue? ==>
      BrightnessRequest(info, b).state == map["brightness" := b] && KasaDispatch.ValidateNumber(b, 1, 100)
    ensures Flag(info, "is_dimmable") == Some(Num(1)) ==>
      (BrightnessRequest(info, b).Issue? <==> KasaDispatch.ValidateNumber(b, 1, 100) && !b.Undefined?)
  {
  }

  /** A colour temperature is requested exactly when the bulb supports it
      and the value lies in [2700, 6500]. */
  lemma TemperatureRule(info: JsValue, t: JsValue)
    ensures TemperatureRequest(info, t).Issue? <==>
      Flag(info, "is_variable_color_temp") == Some(Num(1)) && NumberWithin(t, 2700, 6500)
    ensures TemperatureRequest(info, t).Issue? ==> TemperatureRequest(info, t).state == map["color_temp" := t]
  {
  }

  /** An HSB change is requested exactly when the bulb has colour, the value
      is a plain object with all three keys, and no numeric value is out of
      its range; the requested state carries those three values and
      color_temp 0, and every numeric value in it lies in its range. */
  lemma HsbRule(info: JsValue, hsb: JsValue)
    ensures HsbRequest(info, hsb).Issue? <==>
      && Flag(info, "is_color") == Some(Num(1)) && hsb.Object?
      && "hue" in hsb.fields && "saturation" in hsb.fields && "brightness" in hsb.fields
      && !OutOfRange(hsb.fields["hue"], 0, 360)
      && !OutOfRange(hsb.fields["saturation"], 0, 100)
      && !OutOfRange(hsb.fields["brightness"], 1, 100)
    ensures HsbRequest(info, hsb).Issue? ==>
      var st := HsbRequest(info, hsb).state;
      && st.Keys == {"hue", "saturation", "brightness", "color_temp"}
      && st["color_temp"] == Num(0)
      && st["hue"] == hsb.fields["hue"] && st["saturation"] == hsb.fields["saturation"]
      && st["brightness"] == hsb.fields["brightness"]
      && (ToNumber(st["hue"]).Some? ==> NumberWithin(st["hue"], 0, 360))
      && (ToNumber(st["saturation"]).Some? ==> NumberWithin(st["saturation"], 0, 100))
      && (ToNumber(st["brightness"]).Some? ==> NumberWithin(st["brightness"], 1, 100))
  {
  }

  /** The range checks compare with `<` and `>`, which are false for NaN: a
      hue that is not a number at all (undefined, an object, a word) passes
      them and is requested as it is. */
  lemma HsbNonNumericPasses(info: JsValue, hue: JsValue, saturation: int, brightness: int)
    requires Flag(info, "is_color") == Some(Num(1)) && ToNumber(hue).None?
    requires 0 <= saturation <= 100 && 1 <= brightness <= 100
    ensures var hsb := Object(map["hue" := hue, "saturation" := Num(saturation), "brightness" := Num(brightness)]);
      HsbRequest(info, hsb) == Issue(map["hue" := hue, "saturation" := Num(saturation),
                                         "brightness" := Num(brightness), "color_temp" := Num(0)])
  {
  }
}
