/** Shared vocabulary of the storefront model: optional values, the handful
    of JavaScript string operations the route handlers use (trim, slice,
    replace, startsWith, parseInt, case mapping), decimal rendering and the
    rounding rule of Math.round on integer cents. */
module Common {

  datatype Option<+T> = None | Some(value: T) {
    function GetOr(default: T): T {
      match this
      case Some(v) => v
      case None => default
    }
  }

  /** A field of a parsed JSON request body, as far as the handlers look at
      it: absent/undefined, a string, or some other JSON value (a number, a
      boolean, an array, an object, null), of which the handlers see its
      JavaScript truthiness, its `String(v)` rendering and, for an array,
      its `.length`. */
  datatype Value = Missing | Text(s: string) | NonText(truthy: bool, rendered: string, length: Option<nat>)

  predicate Truthy(v: Value) {
    match v
    case Missing => false
    case Text(s) => s != ""
    case NonText(t, _, _) => t
  }

  /** JavaScript `String(v)`: what parseInt and a regular-expression test
      read from a body value. */
  function JsString(v: Value): (r: string)
    ensures v.Text? ==> r == v.s
    ensures v.Missing? ==> r == "undefined"
    ensures v.NonText? ==> r == v.rendered
  {
    match v
    case Missing => "undefined"
    case Text(s) => s
    case NonText(_, rendered, _) => rendered
  }

  /** JavaScript `v.length`: a string's length, an array's length, and
      nothing for other values. */
  function JsLength(v: Value): (r: Option<nat>)
    ensures v.Text? ==> r == Some(|v.s|)
    ensures v.Missing? ==> r.None?
    ensures v.NonText? ==> r == v.length
  {
    match v
    case Missing => None
    case Text(s) => Some(|s|)
    case NonText(_, _, n) => n
  }

  /** `a || b` on body values: `b` when `a` is falsy. */
  function Or(a: Value, b: Value): (r: Value)
    ensures Truthy(a) ==> r == a
    ensures !Truthy(a) ==> r == b
  {
    if Truthy(a) then a else b
  }

  /** JavaScript `a || null` on an optional string: the empty string is falsy. */
  function NonEmpty(a: Option<string>): (r: Option<string>)
    ensures r.Some? <==> a.Some? && a.value != ""
    ensures r.Some? ==> r == a
  {
    if a.Some? && a.value != "" then a else None
  }

  /** JavaScript `a || b` on optional strings. */
  function OrElse(a: Option<string>, b: Option<string>): (r: Option<string>)
    ensures a.Some? && a.value != "" ==> r == a
    ensures (a.None? || a.value == "") ==> r == b
  {
    if a.Some? && a.value != "" then a else b
  }

  /** `a || b || ... || dflt` over a list of optional strings. */
  function FirstNonEmpty(xs: seq<Option<string>>, dflt: string): (r: string)
    ensures r == dflt || exists i :: 0 <= i < |xs| && xs[i] == Some(r) && r != ""
    ensures (forall i :: 0 <= i < |xs| ==> NonEmpty(xs[i]).None?) ==> r == dflt
    ensures forall i ::
              (0 <= i < |xs| && NonEmpty(xs[i]).Some? && forall j :: 0 <= j < i ==> NonEmpty(xs[j]).None?) ==>
              r == xs[i].value
  {
    if |xs| == 0 then dflt
    else if xs[0].Some? && xs[0].value != "" then xs[0].value
    else FirstNonEmpty(xs[1..], dflt)
  }

  /** One step of the chain: a non-empty head is the answer, else the rest
      is tried. */
  lemma FirstNonEmptyStep(xs: seq<Option<string>>, dflt: string)
    requires |xs| > 0
    ensures NonEmpty(xs[0]).Some? ==> FirstNonEmpty(xs, dflt) == xs[0].value
    ensures NonEmpty(xs[0]).None? ==> FirstNonEmpty(xs, dflt) == FirstNonEmpty(xs[1..], dflt)
  {
  }

  /** Two alternatives: `a || b || dflt`. */
  lemma FirstNonEmptyTwo(a: Option<string>, b: Option<string>, dflt: string)
    ensures FirstNonEmpty([a, b], dflt) == OrElse(OrElse(a, b), Some(dflt)).value
  {
    assert [a, b][1..] == [b];
    assert [b][1..] == [];
  }

  // ---------------------------------------------------------------------
  // Whitespace and trimming

  /** ECMAScript WhiteSpace and LineTerminator code points, the set used by
      String.prototype.trim and by the regular-expression class \s. */
  predicate IsSpace(c: char) {
    c == ' ' || c == '\t' || c == '\n' || c == '\r' || c == '\U{000B}' || c == '\U{000C}' ||
    c == '\U{00A0}' || c == '\U{1680}' || ('\U{2000}' <= c <= '\U{200A}') ||
    c == '\U{2028}' || c == '\U{2029}' || c == '\U{202F}' || c == '\U{205F}' ||
    c == '\U{3000}' || c == '\U{FEFF}'
  }

  function TrimStart(s: string): (r: string)
    ensures |r| <= |s| && r == s[|s| - |r|..]
    ensures r == "" || !IsSpace(r[0])
    ensures forall i :: 0 <= i < |s| - |r| ==> IsSpace(s[i])
  {
    if |s| > 0 && IsSpace(s[0]) then TrimStart(s[1..]) else s
  }

  function TrimEnd(s: string): (r: string)
    ensures |r| <= |s| && r == s[..|r|]
    ensures r == "" || !IsSpace(r[|r| - 1])
    ensures forall i :: |r| <= i < |s| ==> IsSpace(s[i])
  {
    if |s| > 0 && IsSpace(s[|s| - 1]) then TrimEnd(s[..|s| - 1]) else s
  }

  /** String.prototype.trim. */
  function Trim(s: string): (r: string)
    ensures |r| <= |s|
    ensures r == "" || (!IsSpace(r[0]) && !IsSpace(r[|r| - 1]))
  {
    TrimEnd(TrimStart(s))
  }

  /** Trimming only removes characters: what is left was in the input. */
  lemma TrimKeeps(s: string)
    ensures forall i :: 0 <= i < |Trim(s)| ==> Trim(s)[i] in s
  {
    var t := TrimStart(s);
    var u := TrimEnd(t);
    assert u == Trim(s);
    forall i | 0 <= i < |u|
      ensures u[i] in s
    {
      assert u[i] == t[i] == s[|s| - |t| + i];
    }
  }

  lemma TrimNoop(s: string)
    requires s == "" || (!IsSpace(s[0]) && !IsSpace(s[|s| - 1]))
    ensures Trim(s) == s
  {
    assert TrimStart(s) == s;
  }

  /** Trimming is a no-op on a string that neither starts nor ends with
      whitespace, so trimming twice is trimming once. */
  lemma TrimIdempotent(s: string)
    ensures Trim(Trim(s)) == Trim(s)
  {
    var t := Trim(s);
    assert TrimStart(t) == t;
    assert TrimEnd(t) == t;
  }

  /** `sub` occurs in `s` at offset `k`. */
  predicate OccursAt(s: string, sub: string, k: nat) {
    k + |sub| <= |s| && s[k..k + |sub|] == sub
  }

  /** String.prototype.slice(0, n). */
  function Take(s: string, n: nat): (r: string)
    ensures |r| == if |s| <= n then |s| else n
    ensures r == s[..|r|]
  {
    if |s| <= n then s else s[..n]
  }

  // ---------------------------------------------------------------------
  // Prefixes, suffixes, search and replace

  predicate StartsWith(s: string, p: string) {
    |p| <= |s| && s[..|p|] == p
  }

  predicate EndsWith(s: string, p: string) {
    |p| <= |s| && s[|s| - |p|..] == p
  }

  /** String.prototype.includes, by a scan from the left. */
  predicate Contains(s: string, sub: string)
    decreases |s|
  {
    StartsWith(s, sub) || (|s| > 0 && Contains(s[1..], sub))
  }

  /** Contains means an occurrence at some offset. */
  lemma {:induction false} ContainsIff(s: string, sub: string)
    ensures Contains(s, sub) <==> exists k: nat :: OccursAt(s, sub, k)
    decreases |s|
  {
    if StartsWith(s, sub) {
      assert OccursAt(s, sub, 0);
    } else if |s| == 0 {
    } else {
      ContainsIff(s[1..], sub);
      if exists k: nat :: OccursAt(s, sub, k) {
        var k: nat :| OccursAt(s, sub, k);
        assert k != 0;
        assert s[1..][k - 1..k - 1 + |sub|] == s[k..k + |sub|];
        assert OccursAt(s[1..], sub, k - 1);
      }
      if Contains(s[1..], sub) {
        var k: nat :| OccursAt(s[1..], sub, k);
        assert s[k + 1..k + 1 + |sub|] == s[1..][k..k + |sub|];
        assert OccursAt(s, sub, k + 1);
      }
    }
  }

  /** Index of the first occurrence of `c`, if any. */
  function IndexOf(s: string, c: char): (r: Option<nat>)
    ensures r.Some? ==> r.value < |s| && s[r.value] == c && forall i :: 0 <= i < r.value ==> s[i] != c
    ensures r.None? ==> forall i :: 0 <= i < |s| ==> s[i] != c
  {
    if |s| == 0 then None
    else if s[0] == c then Some(0)
    else match IndexOf(s[1..], c)
      case None => None
      case Some(k) => Some(k + 1)
  }

  /** An occurrence with none before it is the first. */
  lemma IndexOfAt(s: string, c: char, k: nat)
    requires k < |s| && s[k] == c && forall i :: 0 <= i < k ==> s[i] != c
    ensures IndexOf(s, c) == Some(k)
  {
  }

  /** The text before the first `c`: `s.split(c)[0]`. */
  function BeforeFirst(s: string, c: char): (r: string)
    ensures |r| <= |s| && r == s[..|r|]
    ensures forall i :: 0 <= i < |r| ==> r[i] != c
    ensures |r| < |s| ==> s[|r|] == c
  {
    match IndexOf(s, c)
    case None => s
    case Some(k) => s[..k]
  }

  /** String.prototype.replace with a string pattern: only the FIRST
      occurrence of `pat` is replaced (the handlers use it to strip a
      'Bearer ' prefix). */
  function ReplaceFirst(s: string, pat: string, rep: string): (r: string)
    requires pat != ""
    decreases |s|
  {
    if StartsWith(s, pat) then rep + s[|pat|..]
    else if |s| == 0 then s
    else [s[0]] + ReplaceFirst(s[1..], pat, rep)
  }

  /** Replacing a prefix that is there amounts to dropping it. */
  lemma ReplaceFirstOfPrefixed(p: string, t: string)
    requires p != ""
    ensures ReplaceFirst(p + t, p, "") == t
  {
    assert (p + t)[..|p|] == p;
    assert (p + t)[|p|..] == t;
  }

  /** Without an occurrence, replace changes nothing. */
  lemma {:induction false} ReplaceFirstAbsent(s: string, pat: string, rep: string)
    requires pat != "" && !Contains(s, pat)
    ensures ReplaceFirst(s, pat, rep) == s
    decreases |s|
  {
    if |s| > 0 {
      ReplaceFirstAbsent(s[1..], pat, rep);
    }
  }

  /** Remove every character satisfying `drop` (a global regex replace of a
      character class by ''). */
  function RemoveAll(s: string, drop: char -> bool): (r: string)
    ensures |r| <= |s|
    ensures forall i :: 0 <= i < |r| ==> !drop(r[i])
    ensures forall i :: 0 <= i < |s| && !drop(s[i]) ==> s[i] in r
    ensures forall i :: 0 <= i < |r| ==> r[i] in s
  {
    if |s| == 0 then ""
    else if drop(s[0]) then RemoveAll(s[1..], drop)
    else [s[0]] + RemoveAll(s[1..], drop)
  }

  /** Removal distributes over concatenation. */
  lemma {:induction false} RemoveAllAppend(s: string, t: string, drop: char -> bool)
    ensures RemoveAll(s + t, drop) == RemoveAll(s, drop) + RemoveAll(t, drop)
  {
    if |s| > 0 {
      assert (s + t)[0] == s[0] && (s + t)[1..] == s[1..] + t;
      RemoveAllAppend(s[1..], t, drop);
      if !drop(s[0]) {
        assert [s[0]] + RemoveAll(s[1..], drop) + RemoveAll(t, drop) ==
               [s[0]] + (RemoveAll(s[1..], drop) + RemoveAll(t, drop));
      }
    } else {
      assert s + t == t;
    }
  }

  /** The kept characters stay, in order: removing from a string that has
      nothing to remove gives it back. */
  lemma {:induction false} RemoveAllNothing(s: string, drop: char -> bool)
    requires forall i :: 0 <= i < |s| ==> !drop(s[i])
    ensures RemoveAll(s, drop) == s
  {
    if |s| > 0 {
      RemoveAllNothing(s[1..], drop);
    }
  }

  // ---------------------------------------------------------------------
  // Case mapping (ASCII letters only)

  predicate IsUpper(c: char) { 'A' <= c <= 'Z' }
  predicate IsLower(c: char) { 'a' <= c <= 'z' }
  predicate IsDigit(c: char) { '0' <= c <= '9' }
  predicate IsAlnumLower(c: char) { IsLower(c) || IsDigit(c) }
  predicate IsHexDigit(c: char) { IsDigit(c) || ('a' <= c <= 'f') || ('A' <= c <= 'F') }

  function UpperChar(c: char): (r: char)
    ensures !IsLower(r)
    ensures !IsLower(c) ==> r == c
  {
    if IsLower(c) then (c as int - 32) as char else c
  }

  function LowerChar(c: char): (r: char)
    ensures !IsUpper(r)
    ensures !IsUpper(c) ==> r == c
  {
    if IsUpper(c) then (c as int + 32) as char else c
  }

  function ToUpper(s: string): (r: string)
    ensures |r| == |s|
    ensures forall i :: 0 <= i < |s| ==> r[i] == UpperChar(s[i])
  {
    if |s| == 0 then "" else [UpperChar(s[0])] + ToUpper(s[1..])
  }

  function ToLower(s: string): (r: string)
    ensures |r| == |s|
    ensures forall i :: 0 <= i < |s| ==> r[i] == LowerChar(s[i])
  {
    if |s| == 0 then "" else [LowerChar(s[0])] + ToLower(s[1..])
  }

  /** Upper-casing is idempotent, so an upper-cased code looks itself up. */
  lemma ToUpperIdempotent(s: string)
    ensures ToUpper(ToUpper(s)) == ToUpper(s)
  {
  }

  // ---------------------------------------------------------------------
  // Numbers as text

  function DigitChar(d: nat): (c: char)
    requires d < 10
    ensures IsDigit(c)
  {
    ('0' as int + d) as char
  }

  function DigitValue(c: char): (d: nat)
    requires IsDigit(c)
    ensures d < 10 && DigitChar(d) == c
  {
    c as int - '0' as int
  }

  predicate AllDigits(s: string) {
    forall i :: 0 <= i < |s| ==> IsDigit(s[i])
  }

  /** Number.prototype.toString for a non-negative integer. */
  function NatToString(n: nat): (r: string)
    ensures |r| > 0 && AllDigits(r)
    ensures |r| > 1 ==> r[0] != '0'
    decreases n
  {
    if n < 10 then [DigitChar(n)] else NatToString(n / 10) + [DigitChar(n % 10)]
  }

  /** Value of a string of decimal digits (most significant first). */
  function DigitsValue(s: string): (n: nat)
    requires AllDigits(s)
  {
    if |s| == 0 then 0 else DigitsValue(s[..|s| - 1]) * 10 + DigitValue(s[|s| - 1])
  }

  /** Rendering then reading back a number gives the number. */
  lemma {:induction false} NatToStringRoundTrip(n: nat)
    ensures DigitsValue(NatToString(n)) == n
    decreases n
  {
    if n >= 10 {
      NatToStringRoundTrip(n / 10);
      var s := NatToString(n);
      assert s[..|s| - 1] == NatToString(n / 10);
    }
  }

  /** Leading zeros do not change the value. */
  lemma {:induction false} ZerosValue(z: string, s: string)
    requires AllDigits(s) && forall i :: 0 <= i < |z| ==> z[i] == '0'
    ensures AllDigits(z + s) && DigitsValue(z + s) == DigitsValue(s)
    decreases |s|
  {
    if |s| == 0 {
      assert z + s == z;
      ZerosOnly(z);
    } else {
      assert (z + s)[..|z + s| - 1] == z + s[..|s| - 1];
      ZerosValue(z, s[..|s| - 1]);
    }
  }

  lemma {:induction false} ZerosOnly(z: string)
    requires forall i :: 0 <= i < |z| ==> z[i] == '0'
    ensures AllDigits(z) && DigitsValue(z) == 0
  {
    if |z| > 0 {
      ZerosOnly(z[..|z| - 1]);
    }
  }

  function Repeat(c: char, n: nat): (r: string)
    ensures |r| == n && forall i :: 0 <= i < n ==> r[i] == c
  {
    if n == 0 then "" else [c] + Repeat(c, n - 1)
  }

  /** String.prototype.padStart(width, c). */
  function PadStart(s: string, width: nat, c: char): (r: string)
    ensures |r| == if |s| < width then width else |s|
    ensures EndsWith(r, s)
    ensures forall i :: 0 <= i < |r| - |s| ==> r[i] == c
  {
    var p := if |s| < width then Repeat(c, width - |s|) else "";
    assert (p + s)[|p + s| - |s|..] == s;
    p + s
  }

  /** Math.round(a / b) for b > 0: the nearest integer, halves upward. */
  function RoundDiv(a: int, b: int): (r: int)
    requires b > 0
    ensures 2 * a - b <= 2 * b * r <= 2 * a + b
    ensures 2 * b * r > 2 * a - b
  {
    (2 * a + b) / (2 * b)
  }

  /** Rounding a non-negative quotient gives a non-negative number. */
  lemma RoundDivNonNegative(a: int, b: int)
    requires b > 0
    ensures a >= 0 ==> RoundDiv(a, b) >= 0
  {
  }

  /** Integer division undoes multiplication when the remainder is small. */
  lemma MulPositive(k: int, m: int)
    requires k >= 0 && m > 0
    ensures k * m >= 0
  {
  }

  lemma DivOfMultiplePlus(a: int, m: int, r: int)
    requires m > 0 && 0 <= r < m
    ensures (a * m + r) / m == a
  {
    var t := (a * m + r) / m;
    var rem := (a * m + r) % m;
    assert a * m + r == t * m + rem;
    assert (a - t) * m == rem - r;
    if a - t >= 1 {
      MulPositive(a - t - 1, m);
    } else if a - t <= -1 {
      MulPositive(t - a - 1, m);
    }
  }

  /** Math.ceil(a / b) for b > 0. */
  function CeilDiv(a: int, b: int): (r: int)
    requires b > 0
    ensures b * (r - 1) < a <= b * r
  {
    -((-a) / b)
  }

  /** JavaScript parseInt(s, 10): skip leading whitespace, an optional sign,
      then the longest run of decimal digits; no digit at all is NaN (None). */
  function ParseInt(s: string): (r: Option<int>)
  {
    var t := TrimStart(s);
    if |t| > 0 && (t[0] == '-' || t[0] == '+') then
      var d := LeadingDigits(t[1..]);
      if d == "" then None
      else if t[0] == '-' then Some(0 - DigitsValue(d) as int) else Some(DigitsValue(d) as int)
    else
      var d := LeadingDigits(t);
      if d == "" then None else Some(DigitsValue(d) as int)
  }

  function LeadingDigits(s: string): (r: string)
    ensures |r| <= |s| && r == s[..|r|] && AllDigits(r)
    ensures |r| < |s| ==> !IsDigit(s[|r|])
  {
    if |s| > 0 && IsDigit(s[0]) then [s[0]] + LeadingDigits(s[1..]) else ""
  }

  /** The decimal text of a number parses back to it. */
  lemma ParseIntOfNat(n: nat)
    ensures ParseInt(NatToString(n)) == Some(n)
  {
    var s := NatToString(n);
    AllDigitsLeading(s);
    NatToStringRoundTrip(n);
    assert !IsSpace(s[0]);
    assert TrimStart(s) == s;
    assert s[0] != '-' && s[0] != '+';
  }

  /** Number.prototype.toString for any integer. */
  function IntToString(n: int): (r: string)
    ensures |r| > 0 && (r[0] == '-' <==> n < 0)
  {
    if n < 0 then "-" + NatToString(-n) else NatToString(n)
  }

  /** parseInt reads back what toString wrote, negative numbers included. */
  lemma ParseIntOfInt(n: int)
    ensures ParseInt(IntToString(n)) == Some(n)
  {
    if n >= 0 {
      ParseIntOfNat(n);
    } else {
      var d := NatToString(-n);
      var s := IntToString(n);
      AllDigitsLeading(d);
      NatToStringRoundTrip(-n);
      assert !IsSpace(s[0]);
      assert TrimStart(s) == s;
      assert s[1..] == d;
    }
  }

  /** Text that starts with neither white space, a sign nor a digit reads
      as NaN. */
  lemma ParseIntNoDigits(s: string)
    requires |s| > 0 && !IsSpace(s[0]) && !IsDigit(s[0]) && s[0] != '-' && s[0] != '+'
    ensures ParseInt(s).None?
  {
    assert TrimStart(s) == s;
  }

  lemma {:induction false} AllDigitsLeading(s: string)
    requires AllDigits(s)
    ensures LeadingDigits(s) == s
  {
    if |s| > 0 {
      AllDigitsLeading(s[1..]);
    }
  }
}
