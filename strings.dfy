/** String helpers shared by all nodes: ASCII case folding, substring search,
    splitting and joining on a separator character, and decimal rendering of
    integers (JavaScript's template-literal formatting of integral numbers). */
module Strings {

  /** Upper-cases an ASCII letter; every other character is returned unchanged. */
  function UpperChar(c: char): char
  {
    if 'a' <= c <= 'z' then (c as int - 32) as char else c
  }

  /** Lower-cases an ASCII letter; every other character is returned unchanged. */
  function LowerChar(c: char): char
  {
    if 'A' <= c <= 'Z' then (c as int + 32) as char else c
  }

  function Upper(s: string): (r: string)
    ensures |r| == |s|
    ensures forall i :: 0 <= i < |s| ==> r[i] == UpperChar(s[i])
  {
    seq(|s|, i requires 0 <= i < |s| => UpperChar(s[i]))
  }

  /** `s` spells the upper-case ASCII word `w` with each letter in either case:
      this is what a `/^W$/i` regular expression accepts. */
  ghost predicate SpellsIgnoringCase(s: string, w: string)
  {
    |s| == |w| && forall i :: 0 <= i < |s| ==> s[i] == w[i] || s[i] == LowerChar(w[i])
  }

  ghost predicate UpperAsciiWord(w: string)
  {
    forall i :: 0 <= i < |w| ==> 'A' <= w[i] <= 'Z'
  }

  /** Comparing the upper-cased string with an upper-case word is the same as
      accepting every mix of cases of that word, and nothing else. */
  lemma UpperEqualsIff(s: string, w: string)
    requires UpperAsciiWord(w)
    ensures Upper(s) == w <==> SpellsIgnoringCase(s, w)
  {
    if Upper(s) == w {
      forall i | 0 <= i < |s| ensures s[i] == w[i] || s[i] == LowerChar(w[i]) {
        assert UpperChar(s[i]) == w[i];
      }
    }
    if SpellsIgnoringCase(s, w) {
      assert forall i :: 0 <= i < |s| ==> Upper(s)[i] == w[i];
    }
  }

  function StartsWith(s: string, prefix: string): (r: bool)
    ensures r <==> |prefix| <= |s| && s[..|prefix|] == prefix
  {
    |prefix| <= |s| && s[..|prefix|] == prefix
  }

  /** `sub` occurs in `s` starting at position `i`. */
  ghost predicate OccursAt(s: string, sub: string, i: int)
  {
    0 <= i <= |s| - |sub| && s[i..i + |sub|] == sub
  }

  /** Substring containment, as JavaScript's `String.prototype.includes`. */
  function Contains(s: string, sub: string): (r: bool)
    ensures r <==> exists i :: OccursAt(s, sub, i)
    decreases |s|
  {
    if |s| < |sub| then false
    else if s[..|sub|] == sub then assert OccursAt(s, sub, 0); true
    else
      var rest := Contains(s[1..], sub);
      assert rest ==> OccursAt(s, sub, 0) || exists i :: OccursAt(s, sub, i) by {
        if rest {
          var j :| OccursAt(s[1..], sub, j);
          assert s[j + 1..j + 1 + |sub|] == s[1..][j..j + |sub|];
          assert OccursAt(s, sub, j + 1);
        }
      }
      assert forall i | OccursAt(s, sub, i) :: i >= 1 && OccursAt(s[1..], sub, i - 1) by {
        forall i | OccursAt(s, sub, i) ensures i >= 1 && OccursAt(s[1..], sub, i - 1) {
          assert s[1..][i - 1..i - 1 + |sub|] == s[i..i + |sub|];
        }
      }
      rest
  }

  /** `sub` cannot occur in `s` when its first character is missing from
      `s`, or when it is not shorter than `s` and differs from it. */
  lemma NotContains(s: string, sub: string)
    requires |sub| > 0
    requires sub[0] !in s || (|sub| >= |s| && s != sub)
    ensures !Contains(s, sub)
  {
    forall i ensures !OccursAt(s, sub, i) {
      if 0 <= i <= |s| - |sub| {
        if sub[0] !in s {
          assert s[i..i + |sub|][0] == s[i];
        } else {
          assert s[i..i + |sub|] == s;
        }
      }
    }
  }

  /** Position of the first `c` in `s`. */
  function IndexOf(s: string, c: char): (i: nat)
    requires c in s
    ensures i < |s| && s[i] == c && c !in s[..i]
  {
    if s[0] == c then 0 else 1 + IndexOf(s[1..], c)
  }

  /** `s.split(sep)` for a one-character separator: the pieces between the
      separators, in order; an empty string gives one empty piece. */
  function Split(s: string, sep: char): (r: seq<string>)
    ensures |r| >= 1
    ensures forall k :: 0 <= k < |r| ==> sep !in r[k]
    decreases |s|
  {
    if sep !in s then [s]
    else
      var i := IndexOf(s, sep);
      [s[..i]] + Split(s[i + 1..], sep)
  }

  /** `parts.join(sep)`. */
  function Join(parts: seq<string>, sep: string): string
  {
    if |parts| == 0 then ""
    else if |parts| == 1 then parts[0]
    else parts[0] + sep + Join(parts[1..], sep)
  }

  /** Joining the pieces of a split gives back the original string. */
  lemma {:induction false} JoinSplit(s: string, sep: char)
    ensures Join(Split(s, sep), [sep]) == s
    decreases |s|
  {
    if sep in s {
      var i := IndexOf(s, sep);
      var rest := Split(s[i + 1..], sep);
      JoinSplit(s[i + 1..], sep);
      assert Split(s, sep) == [s[..i]] + rest;
      assert s == s[..i] + [sep] + s[i + 1..];
    }
  }

  /** Splitting a join of separator-free pieces gives back the pieces. */
  lemma {:induction false} SplitJoin(parts: seq<string>, sep: char)
    requires |parts| >= 1
    requires forall k :: 0 <= k < |parts| ==> sep !in parts[k]
    ensures Split(Join(parts, [sep]), sep) == parts
  {
    if |parts| > 1 {
      var s := Join(parts, [sep]);
      assert s == parts[0] + [sep] + Join(parts[1..], [sep]);
      assert s[|parts[0]|] == sep;
      assert s[..|parts[0]|] == parts[0];
      assert IndexOf(s, sep) == |parts[0]|;
      assert s[|parts[0]| + 1..] == Join(parts[1..], [sep]);
      SplitJoin(parts[1..], sep);
    }
  }

  function DigitChar(d: nat): char
    requires d < 10
  {
    ('0' as int + d) as char
  }

  function DigitValue(c: char): nat
  {
    if '0' <= c <= '9' then c as int - '0' as int else 0
  }

  ghost predicate AllDigits(s: string)
  {
    forall i :: 0 <= i < |s| ==> '0' <= s[i] <= '9'
  }

  /** Decimal rendering of a natural number, without leading zeros. */
  function NatToString(n: nat): (r: string)
    ensures |r| >= 1 && AllDigits(r)
    ensures |r| > 1 ==> r[0] != '0'
  {
    if n < 10 then [DigitChar(n)] else NatToString(n / 10) + [DigitChar(n % 10)]
  }

  /** Decimal rendering of an integer, with a leading '-' when negative. */
  function IntToString(n: int): (r: string)
    ensures |r| >= 1
  {
    if n < 0 then "-" + NatToString(-n) else NatToString(n)
  }

  /** Value of a string of decimal digits (the empty string is 0). */
  function DigitsValue(s: string): nat
  {
    if |s| == 0 then 0 else DigitsValue(s[..|s| - 1]) * 10 + DigitValue(s[|s| - 1])
  }

  /** Reading the decimal rendering back gives the number. */
  lemma {:induction false} DigitsValueOfNatToString(n: nat)
    ensures DigitsValue(NatToString(n)) == n
  {
    if n >= 10 {
      var s := NatToString(n);
      assert s[..|s| - 1] == NatToString(n / 10);
      DigitsValueOfNatToString(n / 10);
    }
  }

  /** Different numbers are rendered differently. */
  lemma NatToStringInjective(m: nat, n: nat)
    requires NatToString(m) == NatToString(n)
    ensures m == n
  {
    DigitsValueOfNatToString(m);
    DigitsValueOfNatToString(n);
  }
}
