/** How the smart-bulb node reads particular strings: words are routed by
    their text, 'brightness:<n>' carries the number n, and 'clearEvents' is
    stored as it is. */
module BulbCommands {
  import opened Strings
  import opened JsValues
  import opened LegacyNodes
  import SmartBulbs
  import DeviceApi
  import BulbLights

  /** A string that starts with a letter is never loosely equal to a
      boolean, so the bulb routes it by its text. */
  lemma BulbWord(b: Legacy, s: string)
    requires b.device.Some? && |s| > 0 && 'a' <= s[0] <= 'z' && !IsJsSpace(s[|s| - 1])
    ensures SmartBulbs.Dispatch(b, Str(s)) == (SmartBulbs.StringInput(b, s).0, SmartBulbs.StringInput(b, s).1, false)
  {
    WordIsNaN(s);
  }

  /** Splitting `w:t` at ':' when neither part holds a colon. */
  lemma SplitPair(w: string, t: string)
    requires ':' !in w && ':' !in t
    ensures Split(w + ":" + t, ':') == [w, t]
  {
    var s := w + ":" + t;
    assert s[|w|] == ':';
    var i := IndexOf(s, ':');
    assert s[..|w|] == w;
    assert i == |w|;
    assert s[i + 1..] == t;
  }

  /** The text after the colon of `w:<n>` is read back as n. */
  lemma AfterColonOfNat(w: string, n: nat)
    requires ':' !in w
    ensures SmartBulbs.AfterColon(w + ":" + NatToString(n)) == Num(n)
  {
    var digits := NatToString(n);
    assert ':' !in digits by {
      forall k | 0 <= k < |digits| ensures digits[k] != ':' {
        assert '0' <= digits[k] <= '9';
      }
    }
    SplitPair(w, digits);
    ParseIntOfNat(n);
  }

  /** A string contains its own prefix. */
  lemma ContainsPrefix(w: string, t: string)
    ensures Contains(w + t, w)
  {
    assert (w + t)[..|w|] == w;
    assert OccursAt(w + t, w, 0);
  }

  /** 'brightness:<n>' (the word w followed by a colon and n) asks for
      brightness n: the bulb's information is requested first, and its reply
      decides. */
  lemma BulbBrightnessCommand(b: Legacy, w: string, n: nat, payload: JsValue)
    requires b.device.Some? && w == "brightness" && payload == Str(w + ":" + NatToString(n))
    ensures SmartBulbs.Dispatch(b, payload)
      == (Ask(b, DeviceApi.GetSysInfo), [LightReply(BulbLights.Brightness(Num(n)), true)], false)
  {
    var s := payload.s;
    PlainWord(w);
    ColonNat(w, n);
    BulbWord(b, s);
    BrightnessRoute(b, s, w);
  }

  /** A string containing 'brightness' is a brightness command, whatever
      else it holds. */
  lemma BrightnessRoute(b: Legacy, s: string, w: string)
    requires b.device.Some? && w == "brightness" && Contains(s, w)
    ensures SmartBulbs.StringInput(b, s)
         == (Ask(b, DeviceApi.GetSysInfo), [LightReply(BulbLights.Brightness(SmartBulbs.AfterColon(s)), true)])
  {
  }

  /** 'brightness' is a lower-case word without a colon. */
  lemma PlainWord(w: string)
    requires w == "brightness"
    ensures |w| > 0 && 'a' <= w[0] <= 'z' && ':' !in w
  {
  }

  /** `w:<n>` for a lower-case word w starts with a letter, ends with a digit,
      contains w, and reads back n after its colon. */
  lemma ColonNat(w: string, n: nat)
    requires |w| > 0 && 'a' <= w[0] <= 'z' && ':' !in w
    ensures var s := w + ":" + NatToString(n);
      && |s| > 0 && 'a' <= s[0] <= 'z' && !IsJsSpace(s[|s| - 1])
      && Contains(s, w) && SmartBulbs.AfterColon(s) == Num(n)
  {
    var digits := NatToString(n);
    var s := w + ":" + digits;
    assert s[0] == w[0];
    assert s[|s| - 1] == digits[|digits| - 1];
    assert '0' <= s[|s| - 1] <= '9';
    ContainsPrefix(w, ":" + digits);
    assert w + (":" + digits) == s;
    AfterColonOfNat(w, n);
  }

  /** Every command starts with 'g', 's' or 'e'. */
  lemma CommandNone(s: string)
    requires |s| > 0 && s[0] != 'g' && s[0] != 's' && s[0] != 'e'
    ensures Command(s).None?
  {
  }

  /** The bulb stores 'clearEvents' as it is. */
  lemma BulbClearEvents(b: Legacy, payload: JsValue)
    requires b.device.Some? && payload == Str("clearEvents")
    ensures SmartBulbs.Dispatch(b, payload) == (b.(action := Some(payload.s)), [], false)
  {
    var s := payload.s;
    assert s[0] == 'c';
    BulbWord(b, s);
    NotContains(s, "brightness");
    NotContains(s, "temperature");
    CommandNone(s);
  }
}
