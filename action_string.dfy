/** The event subscriptions of the smart-bulb node and of the older
    smart-plug node (smart-plug.bak.js): the recognised event names of an
    input, kept in the node context as one `|`-joined string, and tested with
    substring containment. Containment agrees with membership because no
    subscription name occurs inside another one or across a separator. */
module ActionStrings {
  import opened Strings
  import opened JsValues

  /** `names.filter(a => known.indexOf(a) !== -1)`: strict equality, so only
      strings are recognised. */
  function Recognised(items: seq<JsValue>, known: seq<string>): (r: seq<string>)
    ensures forall a :: a in r ==> a in known
    ensures forall a :: a in r <==> Str(a) in items && a in known
    ensures |r| <= |items|
  {
    if |items| == 0 then []
    else
      var rest := Recognised(items[..|items| - 1], known);
      var last := items[|items| - 1];
      assert items == items[..|items| - 1] + [last];
      if last.Str? && last.s in known then rest + [last.s] else rest
  }

  /** What the node stores: the recognised names joined by `|`, or ''. */
  function Stored(names: seq<string>): string
  {
    if |names| > 0 then Join(names, "|") else ""
  }

  /** `checkAction(a)`: the stored value exists and contains `a`. */
  predicate CheckAction(stored: Option<string>, a: string)
  {
    stored.Some? && Contains(stored.value, a)
  }

  /** The shape every subscription name has: it starts with the only 'g' it
      contains, its only 'E' begins the final "Events", and it has no '|'. */
  ghost predicate WellShaped(w: string)
  {
    && |w| >= 12 && w[0] == 'g' && w[|w| - 6] == 'E'
    && (forall i :: 1 <= i < |w| ==> w[i] != 'g')
    && (forall i :: 0 <= i < |w| && i != |w| - 6 ==> w[i] != 'E')
    && (forall i :: 0 <= i < |w| ==> w[i] != '|')
  }

  ghost predicate AllWellShaped(ws: seq<string>)
  {
    forall k :: 0 <= k < |ws| ==> WellShaped(ws[k])
  }

  /** One well-shaped name occurs inside another only when they are equal. */
  lemma WellShapedOccurrence(p: string, a: string, i: int)
    requires WellShaped(p) && WellShaped(a) && OccursAt(p, a, i)
    ensures i == 0 && a == p
  {
    assert p[i] == a[0];
    assert p[|a| - 6] == a[|a| - 6];
  }

  /** A string without '|' occurs in a `|`-join only inside one of the parts. */
  lemma {:induction false} JoinOccurrence(parts: seq<string>, a: string, i: int)
    requires |parts| > 0 && |a| > 0 && (forall j :: 0 <= j < |a| ==> a[j] != '|')
    requires OccursAt(Join(parts, "|"), a, i)
    ensures exists k, j :: 0 <= k < |parts| && OccursAt(parts[k], a, j)
    decreases |parts|
  {
    var s := Join(parts, "|");
    if |parts| == 1 {
      assert OccursAt(parts[0], a, i);
    } else {
      var n := |parts[0]|;
      var rest := Join(parts[1..], "|");
      assert s == parts[0] + "|" + rest;
      // the separator at position n cannot lie inside the occurrence
      assert s[n] == '|';
      assert forall j :: i <= j < i + |a| ==> s[j] == a[j - i];
      if i + |a| <= n {
        assert parts[0][i..i + |a|] == s[i..i + |a|];
        assert OccursAt(parts[0], a, i);
      } else {
        assert i > n;
        assert rest[i - n - 1..i - n - 1 + |a|] == s[i..i + |a|];
        JoinOccurrence(parts[1..], a, i - n - 1);
        var k, j :| 0 <= k < |parts[1..]| && OccursAt(parts[1..][k], a, j);
        assert OccursAt(parts[k + 1], a, j);
      }
    }
  }

  /** Each part of a `|`-join occurs in it. */
  lemma {:induction false} JoinContainsParts(parts: seq<string>, k: int)
    requires 0 <= k < |parts|
    ensures Contains(Join(parts, "|"), parts[k])
    decreases |parts|
  {
    var s := Join(parts, "|");
    if |parts| == 1 {
      assert OccursAt(s, parts[0], 0);
    } else {
      var rest := Join(parts[1..], "|");
      assert s == parts[0] + "|" + rest;
      if k == 0 {
        assert s[..|parts[0]|] == parts[0];
        assert OccursAt(s, parts[0], 0);
      } else {
        JoinContainsParts(parts[1..], k - 1);
        var j :| OccursAt(rest, parts[k], j);
        var off := |parts[0]| + 1;
        assert s[off + j..off + j + |parts[k]|] == rest[j..j + |parts[k]|];
        assert OccursAt(s, parts[k], off + j);
      }
    }
  }

  /** For well-shaped subscription names, `checkAction` on the stored string
      is exactly membership in the stored list. */
  lemma StoredCheck(names: seq<string>, a: string)
    requires AllWellShaped(names) && WellShaped(a)
    ensures CheckAction(Some(Stored(names)), a) <==> a in names
  {
    if a in names {
      var k :| 0 <= k < |names| && names[k] == a;
      JoinContainsParts(names, k);
    }
    if CheckAction(Some(Stored(names)), a) {
      var i :| OccursAt(Stored(names), a, i);
      JoinOccurrence(names, a, i);
      var k, j :| 0 <= k < |names| && OccursAt(names[k], a, j);
      WellShapedOccurrence(names[k], a, j);
    }
  }

  /** 'clearEvents', stored as it is, enables no subscription. */
  lemma ClearEventsEnablesNothing(a: string)
    requires WellShaped(a)
    ensures !CheckAction(Some("clearEvents"), a)
  {
  }

  /** The subscription names of both nodes are well shaped. */
  lemma MeterEventsShape() ensures WellShaped("getMeterEvents") {}
  lemma InfoEventsShape() ensures WellShaped("getInfoEvents") {}
  lemma PowerUpdateEventsShape() ensures WellShaped("getPowerUpdateEvents") {}
  lemma InUseEventsShape() ensures WellShaped("getInUseEvents") {}
  lemma OnlineEventsShape() ensures WellShaped("getOnlineEvents") {}
}
