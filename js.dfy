/** JavaScript values and string helpers that the client's handlers rely on:
    the shape of a decoded response body, JS truthiness, property access,
    `String(x)`, `includes`, `trim`, `toLowerCase` and decimal digits. */
module Js {

  datatype Option<T> = None | Some(value: T)

  /** A decoded JSON / JavaScript value as a handler sees it. Numbers are
      integers here; `undefined` and `null` are kept apart because `String()`
      prints them differently. */
  datatype Json =
    | JUndefined
    | JNull
    | JBool(b: bool)
    | JNum(n: int)
    | JStr(s: string)
    | JArr(items: seq<Json>)
    | JObj(fields: map<string, Json>)

  /** JavaScript truthiness: `undefined`, `null`, `false`, `0` and `""` are falsy. */
  predicate Truthy(j: Json) {
    match j
    case JUndefined => false
    case JNull => false
    case JBool(b) => b
    case JNum(n) => n != 0
    case JStr(s) => s != ""
    case JArr(_) => true
    case JObj(_) => true
  }

  /** `j?.key`: optional chaining never throws; a missing key, or any
      non-object, gives `undefined`. */
  function OptGet(j: Json, key: string): (r: Json)
    ensures j.JObj? && key in j.fields ==> r == j.fields[key]
    ensures !(j.JObj? && key in j.fields) ==> r == JUndefined
  {
    if j.JObj? && key in j.fields then j.fields[key] else JUndefined
  }

  /** `j.key`: plain property access throws a TypeError (None) on `null` and
      `undefined`, and otherwise behaves like `j?.key`. */
  function Prop(j: Json, key: string): (r: Option<Json>)
    ensures r.None? <==> j == JUndefined || j == JNull
    ensures r.Some? ==> r.value == OptGet(j, key)
  {
    if j == JUndefined || j == JNull then None else Some(OptGet(j, key))
  }

  /** An object literal of string fields, as sent in a request body. */
  function StringFields(m: map<string, string>): (r: Json)
    ensures r.JObj? && r.fields.Keys == m.Keys
    ensures forall k :: k in m ==> r.fields[k] == JStr(m[k])
  {
    JObj(map k | k in m :: JStr(m[k]))
  }

  // ---------------------------------------------------------------------
  // Decimal digits

  predicate IsDigit(c: char) {
    '0' <= c <= '9'
  }

  predicate AllDigits(s: string) {
    forall i :: 0 <= i < |s| ==> IsDigit(s[i])
  }

  function DigitChar(d: nat): (c: char)
    requires d < 10
    ensures IsDigit(c) && DigitValue(c) == d
  {
    ['0', '1', '2', '3', '4', '5', '6', '7', '8', '9'][d]
  }

  function DigitValue(c: char): nat
    requires IsDigit(c)
  {
    (c as int - '0' as int) as nat
  }

  /** `n.toString()` for a non-negative integer. */
  function NatToString(n: nat): (s: string)
    ensures |s| >= 1 && AllDigits(s)
    ensures n < 10 <==> |s| == 1
    ensures |s| > 1 ==> s[0] != '0'
  {
    if n < 10 then [DigitChar(n)] else NatToString(n / 10) + [DigitChar(n % 10)]
  }

  /** The value of a string of decimal digits, most significant first. */
  function ParseNat(s: string): nat
    requires AllDigits(s)
  {
    if s == [] then 0 else ParseNat(s[..|s| - 1]) * 10 + DigitValue(s[|s| - 1])
  }

  lemma {:induction false} ParseNatToString(n: nat)
    ensures ParseNat(NatToString(n)) == n
  {
    if n >= 10 {
      var s := NatToString(n);
      assert s[..|s| - 1] == NatToString(n / 10);
      ParseNatToString(n / 10);
    }
  }

  function Pow10(k: nat): (p: nat)
    ensures p >= 1
  {
    if k == 0 then 1 else 10 * Pow10(k - 1)
  }

  lemma {:induction false} Pow10Monotonic(j: nat, k: nat)
    requires j <= k
    ensures Pow10(j) <= Pow10(k)
    decreases k
  {
    if j < k {
      Pow10Monotonic(j, k - 1);
    }
  }

  /** A digit string as `toString` writes it: non-empty, no leading zero. */
  predicate Canonical(s: string) {
    |s| >= 1 && AllDigits(s) && (|s| > 1 ==> s[0] != '0')
  }

  /** A string of k digits denotes less than 10^k, and at least 10^(k-1)
      when it does not start with a zero. */
  lemma {:induction false} ParseNatBounds(s: string)
    requires AllDigits(s)
    ensures ParseNat(s) < Pow10(|s|)
    ensures |s| >= 1 && s[0] != '0' ==> Pow10(|s| - 1) <= ParseNat(s)
    decreases |s|
  {
    if s != [] {
      var init := s[..|s| - 1];
      ParseNatBounds(init);
      if |init| >= 1 {
        assert init[0] == s[0];
      }
    }
  }

  /** `toString` is the only canonical spelling of a number. */
  lemma {:induction false} CanonicalRoundTrip(s: string)
    requires Canonical(s)
    ensures NatToString(ParseNat(s)) == s
    decreases |s|
  {
    var last := s[|s| - 1];
    var d := DigitValue(last);
    if |s| == 1 {
      assert DigitValue(DigitChar(d)) == d;
      assert [last] == s;
    } else {
      var init := s[..|s| - 1];
      assert init[0] == s[0];
      CanonicalRoundTrip(init);
      ParseNatBounds(init);
      var n := ParseNat(s);
      assert n == ParseNat(init) * 10 + d;
      assert n / 10 == ParseNat(init) && n % 10 == d;
      assert DigitValue(DigitChar(d)) == d;
      assert s == init + [last];
    }
  }

  /** The number of digits `toString` writes is fixed by the magnitude. */
  lemma NatToStringLength(n: nat)
    ensures n < Pow10(|NatToString(n)|)
    ensures n >= 1 ==> Pow10(|NatToString(n)| - 1) <= n
  {
    var s := NatToString(n);
    ParseNatToString(n);
    ParseNatBounds(s);
    if n >= 1 && |s| == 1 {
      assert DigitValue(s[0]) == n;
    }
  }

  /** Below 10^k, `toString` writes at most k digits. */
  lemma DigitCountBound(n: nat, k: nat)
    requires k >= 1 && n < Pow10(k)
    ensures |NatToString(n)| <= k
  {
    NatToStringLength(n);
    if |NatToString(n)| > k {
      Pow10Monotonic(k, |NatToString(n)| - 1);
    }
  }

  /** At most k digits denote less than 10^k. */
  lemma ParseNatBelow(s: string, k: nat)
    requires AllDigits(s) && |s| <= k
    ensures ParseNat(s) < Pow10(k)
  {
    ParseNatBounds(s);
    Pow10Monotonic(|s|, k);
  }

  /** `String(n)` for an integer. */
  function IntToString(n: int): (s: string)
    ensures n >= 0 ==> s == NatToString(n)
    ensures n < 0 ==> s == "-" + NatToString(-n)
  {
    if n >= 0 then NatToString(n) else "-" + NatToString(-n)
  }

  // ---------------------------------------------------------------------
  // String(x), as used by a template literal

  function ToJsString(j: Json): string
    decreases j
  {
    match j
    case JUndefined => "undefined"
    case JNull => "null"
    case JBool(b) => if b then "true" else "false"
    case JNum(n) => IntToString(n)
    case JStr(s) => s
    case JArr(items) => JoinItems(items)
    case JObj(_) => "[object Object]"
  }

  /** `Array.prototype.join(",")`: `null` and `undefined` elements print as "". */
  function JoinItems(items: seq<Json>): string
    decreases items
  {
    if items == [] then ""
    else
      var head := if items[0] == JUndefined || items[0] == JNull then "" else ToJsString(items[0]);
      if |items| == 1 then head else head + "," + JoinItems(items[1..])
  }

  // ---------------------------------------------------------------------
  // s.includes(t)

  predicate Contains(s: string, t: string)
    decreases |s|
  {
    if |s| < |t| then false else s[..|t|] == t || Contains(s[1..], t)
  }

  predicate OccursAt(s: string, t: string, i: int) {
    0 <= i && i + |t| <= |s| && s[i..i + |t|] == t
  }

  /** `Contains` finds `t` exactly when `t` occurs at some position of `s`. */
  lemma {:induction false} ContainsIffOccurs(s: string, t: string)
    ensures Contains(s, t) <==> exists i :: OccursAt(s, t, i)
    decreases |s|
  {
    if |s| < |t| {
      assert forall i :: !OccursAt(s, t, i);
    } else if s[..|t|] == t {
      assert OccursAt(s, t, 0);
    } else {
      ContainsIffOccurs(s[1..], t);
      if exists i :: OccursAt(s[1..], t, i) {
        var i :| OccursAt(s[1..], t, i);
        assert s[1..][i..i + |t|] == s[i + 1..i + 1 + |t|];
        assert OccursAt(s, t, i + 1);
      }
      if exists i :: OccursAt(s, t, i) {
        var i :| OccursAt(s, t, i);
        assert i != 0;
        assert s[1..][i - 1..i - 1 + |t|] == s[i..i + |t|];
        assert OccursAt(s[1..], t, i - 1);
      }
    }
  }

  // ---------------------------------------------------------------------
  // s.trim()

  /** ECMAScript WhiteSpace and LineTerminator code points. */
  predicate IsJsSpace(c: char) {
    c == '\t' || c == '\n' || c == '\U{000B}' || c == '\U{000C}' || c == '\r' || c == ' '
    || c == '\U{00A0}' || c == '\U{1680}' || ('\U{2000}' <= c <= '\U{200A}')
    || c == '\U{2028}' || c == '\U{2029}' || c == '\U{202F}' || c == '\U{205F}'
    || c == '\U{3000}' || c == '\U{FEFF}'
  }

  predicate AllSpace(s: string) {
    forall i :: 0 <= i < |s| ==> IsJsSpace(s[i])
  }

  function TrimStart(s: string): string
  {
    if |s| > 0 && IsJsSpace(s[0]) then TrimStart(s[1..]) else s
  }

  function TrimEnd(s: string): string
  {
    if |s| > 0 && IsJsSpace(s[|s| - 1]) then TrimEnd(s[..|s| - 1]) else s
  }

  function Trim(s: string): string {
    TrimEnd(TrimStart(s))
  }

  lemma {:induction false} TrimStartShape(s: string)
    ensures exists k :: 0 <= k <= |s| && TrimStart(s) == s[k..] && AllSpace(s[..k])
    ensures TrimStart(s) == [] || !IsJsSpace(TrimStart(s)[0])
  {
    if |s| > 0 && IsJsSpace(s[0]) {
      TrimStartShape(s[1..]);
      var k :| 0 <= k <= |s[1..]| && TrimStart(s[1..]) == s[1..][k..] && AllSpace(s[1..][..k]);
      assert s[1..][k..] == s[k + 1..];
      assert s[..k + 1] == [s[0]] + s[1..][..k];
      assert AllSpace(s[..k + 1]);
    } else {
      assert s[0..] == s;
      assert AllSpace(s[..0]);
    }
  }

  lemma {:induction false} TrimEndShape(s: string)
    ensures exists k :: 0 <= k <= |s| && TrimEnd(s) == s[..k] && AllSpace(s[k..])
    ensures TrimEnd(s) == [] || !IsJsSpace(TrimEnd(s)[|TrimEnd(s)| - 1])
  {
    if |s| > 0 && IsJsSpace(s[|s| - 1]) {
      var p := s[..|s| - 1];
      TrimEndShape(p);
      var k :| 0 <= k <= |p| && TrimEnd(p) == p[..k] && AllSpace(p[k..]);
      assert p[..k] == s[..k];
      assert forall i :: k <= i < |s| - 1 ==> s[i] == p[i];
      assert AllSpace(s[k..]);
    } else {
      assert s[..|s|] == s;
      assert AllSpace(s[|s|..]);
    }
  }

  /** `trim` removes a whitespace prefix and a whitespace suffix and nothing
      else, and leaves no whitespace at either end. */
  lemma TrimShape(s: string)
    ensures exists i, j :: 0 <= i <= j <= |s| && Trim(s) == s[i..j] && AllSpace(s[..i]) && AllSpace(s[j..])
    ensures Trim(s) == [] || (!IsJsSpace(Trim(s)[0]) && !IsJsSpace(Trim(s)[|Trim(s)| - 1]))
  {
    TrimStartShape(s);
    var i :| 0 <= i <= |s| && TrimStart(s) == s[i..] && AllSpace(s[..i]);
    TrimSlice(s, i);
  }

  lemma TrimSlice(s: string, i: nat)
    requires i <= |s| && TrimStart(s) == s[i..] && AllSpace(s[..i])
    requires TrimStart(s) == [] || !IsJsSpace(TrimStart(s)[0])
    ensures exists j :: i <= j <= |s| && Trim(s) == s[i..j] && AllSpace(s[j..])
    ensures Trim(s) == [] || (!IsJsSpace(Trim(s)[0]) && !IsJsSpace(Trim(s)[|Trim(s)| - 1]))
  {
    var t := s[i..];
    TrimEndShape(t);
    var k :| 0 <= k <= |t| && TrimEnd(t) == t[..k] && AllSpace(t[k..]);
    assert t[..k] == s[i..i + k];
    assert t[k..] == s[i + k..];
    if k > 0 {
      assert TrimEnd(t)[0] == t[0];
    }
  }

  /** Trimming twice removes nothing more: what `trim()` keeps neither starts
      nor ends with whitespace. */
  lemma TrimIdempotent(s: string)
    ensures Trim(Trim(s)) == Trim(s)
  {
    TrimShape(s);
  }

  // ---------------------------------------------------------------------
  // s.toLowerCase(), on the ASCII letters

  function LowerChar(c: char): char {
    if 'A' <= c <= 'Z' then (c as int + 32) as char else c
  }

  /** ASCII lower-casing. The only use in this model compares the result with
      the lower-case ASCII words "completed", "canceled" and "in-progress".
      Only two non-ASCII code points lower-case to something starting with an
      ASCII letter: U+212A (KELVIN SIGN) becomes 'k', which none of the words
      contains, and U+0130 (LATIN CAPITAL LETTER I WITH DOT ABOVE) becomes
      'i' followed by U+0307, one code unit longer, so a label holding it can
      never equal one of the words. The comparison therefore agrees with the
      full Unicode mapping. */
  function ToLower(s: string): (r: string)
    ensures |r| == |s|
    ensures forall i :: 0 <= i < |s| ==> r[i] == LowerChar(s[i])
  {
    if s == [] then [] else [LowerChar(s[0])] + ToLower(s[1..])
  }

  predicate IsLowerWord(w: string) {
    forall i :: 0 <= i < |w| ==> !('A' <= w[i] <= 'Z')
  }

  /** `s` spells `w` with any mix of upper- and lower-case ASCII letters. */
  predicate SameIgnoringCase(s: string, w: string) {
    |s| == |w| && forall i :: 0 <= i < |s| ==> s[i] == w[i] || LowerChar(s[i]) == w[i]
  }

  lemma ToLowerMatches(s: string, w: string)
    requires IsLowerWord(w)
    ensures ToLower(s) == w <==> SameIgnoringCase(s, w)
  {
    if SameIgnoringCase(s, w) {
      forall i | 0 <= i < |s| ensures ToLower(s)[i] == w[i] {
        if s[i] == w[i] {
          assert !('A' <= w[i] <= 'Z');
        }
      }
    }
    if ToLower(s) == w {
      assert forall i :: 0 <= i < |s| ==> LowerChar(s[i]) == w[i];
    }
  }
}
