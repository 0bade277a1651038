/** String helpers that stand in for the JavaScript built-ins the dashboard uses:
    template-literal number formatting, `toLowerCase`, `trim`, `includes`
    and `parseInt`. */
module Text {

  /** The digit character for 0 <= d < 10. */
  function DigitChar(d: int): (c: char)
    requires 0 <= d < 10
    ensures '0' <= c <= '9' && c as int - '0' as int == d
  {
    ('0' as int + d) as char
  }

  predicate IsDecimalDigit(c: char) {
    '0' <= c <= '9'
  }

  /** `${n}` for a non-negative integer: decimal digits, no leading zero. */
  function NatToString(n: nat): (s: string)
    ensures |s| >= 1
    ensures forall i :: 0 <= i < |s| ==> IsDecimalDigit(s[i])
    ensures s[0] == '0' <==> n == 0
    ensures n < 10 <==> |s| == 1
  {
    if n < 10 then [DigitChar(n)] else NatToString(n / 10) + [DigitChar(n % 10)]
  }

  /** ASCII part of `String.prototype.toLowerCase`. */
  function LowerChar(c: char): (r: char)
    ensures 'A' <= c <= 'Z' ==> r as int == c as int + 32
    ensures !('A' <= c <= 'Z') ==> r == c
  {
    if 'A' <= c <= 'Z' then (c as int + 32) as char else c
  }

  function Lower(s: string): (r: string)
    ensures |r| == |s|
    ensures forall i :: 0 <= i < |s| ==> r[i] == LowerChar(s[i])
  {
    seq(|s|, i requires 0 <= i < |s| => LowerChar(s[i]))
  }

  /** The characters `trim` removes: ECMAScript WhiteSpace and LineTerminator. */
  predicate IsJsSpace(c: char) {
    c == ' ' || c == '\t' || c == '\n' || c == '\r' || c == '\U{000B}' || c == '\U{000C}'
    || c == '\U{00A0}' || c == '\U{1680}' || ('\U{2000}' <= c <= '\U{200A}')
    || c == '\U{2028}' || c == '\U{2029}' || c == '\U{202F}' || c == '\U{205F}'
    || c == '\U{3000}' || c == '\U{FEFF}'
  }

  function TrimStart(s: string): (r: string)
    ensures |r| <= |s| && r == s[|s| - |r|..]
    ensures |r| > 0 ==> !IsJsSpace(r[0])
    ensures forall i :: 0 <= i < |s| - |r| ==> IsJsSpace(s[i])
  {
    if |s| > 0 && IsJsSpace(s[0]) then TrimStart(s[1..]) else s
  }

  function TrimEnd(s: string): (r: string)
    ensures |r| <= |s| && r == s[..|r|]
    ensures |r| > 0 ==> !IsJsSpace(r[|r| - 1])
    ensures forall i :: |r| <= i < |s| ==> IsJsSpace(s[i])
  {
    if |s| > 0 && IsJsSpace(s[|s| - 1]) then TrimEnd(s[..|s| - 1]) else s
  }

  /** `String.prototype.trim`. */
  function Trim(s: string): (r: string)
    // A piece of s with no white space at either end ...
    ensures Contains(s, r)
    ensures |r| > 0 ==> !IsJsSpace(r[0]) && !IsJsSpace(r[|r| - 1])
    // ... which is s itself when s has none.
    ensures |s| == 0 || (!IsJsSpace(s[0]) && !IsJsSpace(s[|s| - 1])) ==> r == s
  {
    var t := TrimStart(s);
    var r := TrimEnd(t);
    var a := |s| - |t|;
    assert s[a..a + |r|] == r;
    assert OccursAt(s, r, a);
    r
  }

  /** `haystack.includes(needle)`. */
  predicate Contains(haystack: string, needle: string)
    ensures Contains(haystack, needle) ==> |needle| <= |haystack|
    ensures needle == "" ==> Contains(haystack, needle)
  {
    assert needle == "" ==> OccursAt(haystack, needle, 0);
    exists i :: 0 <= i <= |haystack| - |needle| && OccursAt(haystack, needle, i)
  }

  predicate OccursAt(haystack: string, needle: string, i: int) {
    0 <= i && i + |needle| <= |haystack| && haystack[i..i + |needle|] == needle
  }

  /** A string contains each of its infixes. */
  lemma ContainsInfix(a: string, b: string, c: string)
    ensures Contains(a + b + c, b)
  {
    var s := a + b + c;
    assert s[|a|..|a| + |b|] == b;
    assert OccursAt(s, b, |a|);
  }

  /** Lower-casing twice is lower-casing once. */
  lemma LowerIdempotent(s: string)
    ensures Lower(Lower(s)) == Lower(s)
  {
    assert forall i :: 0 <= i < |s| ==> LowerChar(LowerChar(s[i])) == LowerChar(s[i]);
  }

  lemma LowerAppend(a: string, b: string)
    ensures Lower(a + b) == Lower(a) + Lower(b)
  {
    assert forall i :: 0 <= i < |a| ==> (a + b)[i] == a[i];
    assert forall i :: |a| <= i < |a| + |b| ==> (a + b)[i] == b[i - |a|];
  }

  /** A haystack that contains a needle contains every prefix of it. */
  lemma ContainsNeedlePrefix(h: string, a: string, b: string)
    requires Contains(h, a + b)
    ensures Contains(h, a)
  {
    var i :| 0 <= i <= |h| - |a + b| && OccursAt(h, a + b, i);
    assert h[i..i + |a|] == (a + b)[..|a|];
    assert (a + b)[..|a|] == a;
    assert OccursAt(h, a, i);
  }

  // ---------------------------------------------------------------- parseInt

  /** The value of a digit in the given radix, or -1. */
  function DigitValue(c: char, radix: int): (v: int)
    requires radix == 10 || radix == 16
    ensures -1 <= v < radix
  {
    if '0' <= c <= '9' then c as int - '0' as int
    else if radix == 16 && 'a' <= c <= 'f' then c as int - 'a' as int + 10
    else if radix == 16 && 'A' <= c <= 'F' then c as int - 'A' as int + 10
    else -1
  }

  /** Length of the longest prefix of `s` made of radix digits. */
  function DigitRun(s: string, radix: int): (n: nat)
    requires radix == 10 || radix == 16
    ensures n <= |s|
    ensures forall i :: 0 <= i < n ==> DigitValue(s[i], radix) >= 0
    ensures n < |s| ==> DigitValue(s[n], radix) < 0
  {
    if |s| > 0 && DigitValue(s[0], radix) >= 0 then 1 + DigitRun(s[1..], radix) else 0
  }

  /** The number a string of radix digits denotes. */
  function DigitsValue(ds: string, radix: int): (v: nat)
    requires radix == 10 || radix == 16
    requires forall i :: 0 <= i < |ds| ==> DigitValue(ds[i], radix) >= 0
  {
    if |ds| == 0 then 0
    else DigitsValue(ds[..|ds| - 1], radix) * radix + DigitValue(ds[|ds| - 1], radix)
  }

  /** Sign and digits after leading white space, as `parseInt` splits them. */
  function SplitSign(s: string): (int, string) {
    var t := TrimStart(s);
    if |t| > 0 && t[0] == '-' then (-1, t[1..])
    else if |t| > 0 && t[0] == '+' then (1, t[1..])
    else (1, t)
  }

  predicate HasHexPrefix(s: string) {
    |s| >= 2 && s[0] == '0' && (s[1] == 'x' || s[1] == 'X')
  }

  /** The unsigned part of `parseInt`: a `0x` prefix selects radix 16, then the
      longest run of digits is read; no digit at all is NaN, here 0. */
  function ParseMagnitude(rest: string): nat {
    var radix := if HasHexPrefix(rest) then 16 else 10;
    var body := if radix == 16 then rest[2..] else rest;
    var n := DigitRun(body, radix);
    if n == 0 then 0 else DigitsValue(body[..n], radix)
  }

  /** `parseInt(s) || 0`: the JavaScript integer parse without a radix,
      with NaN (and -0) replaced by 0. */
  function ParseIntOrZero(s: string): int {
    var (sign, rest) := SplitSign(s);
    sign * ParseMagnitude(rest)
  }

  lemma {:induction false} DigitsValueOfNat(n: nat)
    ensures forall i :: 0 <= i < |NatToString(n)| ==> DigitValue(NatToString(n)[i], 10) >= 0
    ensures DigitsValue(NatToString(n), 10) == n
  {
    var s := NatToString(n);
    if n >= 10 {
      DigitsValueOfNat(n / 10);
      assert s[..|s| - 1] == NatToString(n / 10);
    }
  }

  lemma DigitRunOfNat(n: nat, tail: string)
    requires |tail| == 0 || DigitValue(tail[0], 10) < 0
    ensures DigitRun(NatToString(n) + tail, 10) == |NatToString(n)|
  {
    var digits := NatToString(n);
    var s := digits + tail;
    if |digits| < |s| {
      assert s[|digits|] == tail[0];
    }
    assert forall i :: 0 <= i < |digits| ==> s[i] == digits[i];
  }

  /** A tail that can follow a formatted number without being read as part of it. */
  predicate SeparatesNumber(tail: string) {
    |tail| == 0 || (!IsDecimalDigit(tail[0]) && tail[0] != 'x' && tail[0] != 'X')
  }

  lemma MagnitudeOfNat(n: nat, tail: string)
    requires SeparatesNumber(tail)
    ensures ParseMagnitude(NatToString(n) + tail) == n
  {
    var body := NatToString(n) + tail;
    assert !HasHexPrefix(body) by {
      assert body[0] == NatToString(n)[0];
      if |NatToString(n)| == 1 && |tail| > 0 {
        assert body[1] == tail[0];
      }
    }
    DigitRunOfNat(n, tail);
    DigitsValueOfNat(n);
    assert body[..|NatToString(n)|] == NatToString(n);
  }

  lemma {:induction false} TrimStartDropsSpace(lead: string, s: string)
    requires forall i :: 0 <= i < |lead| ==> IsJsSpace(lead[i])
    requires |s| > 0 && !IsJsSpace(s[0])
    ensures TrimStart(lead + s) == s
  {
    if |lead| > 0 {
      assert (lead + s)[1..] == lead[1..] + s;
      TrimStartDropsSpace(lead[1..], s);
    } else {
      assert lead + s == s;
    }
  }

  lemma {:induction false} TrimEndDropsSpace(s: string, trail: string)
    requires forall i :: 0 <= i < |trail| ==> IsJsSpace(trail[i])
    requires |s| > 0 && !IsJsSpace(s[|s| - 1])
    ensures TrimEnd(s + trail) == s
  {
    if |trail| > 0 {
      assert (s + trail)[..|s + trail| - 1] == s + trail[..|trail| - 1];
      TrimEndDropsSpace(s, trail[..|trail| - 1]);
    } else {
      assert s + trail == s;
    }
  }

  /** `trim` removes exactly the white space around a word. */
  lemma TrimPadded(lead: string, s: string, trail: string)
    requires forall i :: 0 <= i < |lead| ==> IsJsSpace(lead[i])
    requires forall i :: 0 <= i < |trail| ==> IsJsSpace(trail[i])
    requires |s| > 0 && !IsJsSpace(s[0]) && !IsJsSpace(s[|s| - 1])
    ensures Trim(lead + s + trail) == s
  {
    assert lead + s + trail == lead + (s + trail);
    TrimStartDropsSpace(lead, s + trail);
    TrimEndDropsSpace(s, trail);
  }

  lemma SplitSignAfterSpace(lead: string, body: string)
    requires forall i :: 0 <= i < |lead| ==> IsJsSpace(lead[i])
    requires |body| > 0 && IsDecimalDigit(body[0])
    ensures SplitSign(lead + body) == (1, body)
  {
    TrimStartDropsSpace(lead, body);
  }

  lemma SplitSignAfterMinus(lead: string, body: string)
    requires forall i :: 0 <= i < |lead| ==> IsJsSpace(lead[i])
    requires |body| > 0 && IsDecimalDigit(body[0])
    ensures SplitSign(lead + "-" + body) == (-1, body)
  {
    var signed := "-" + body;
    ConcatAssoc(lead, "-", body);
    TrimStartDropsSpace(lead, signed);
    assert signed[1..] == body;
  }

  /** `parseInt` is the sign times the magnitude of what follows it. */
  lemma ParseIntFromParts(s: string, sign: int, rest: string, n: nat)
    requires SplitSign(s) == (sign, rest)
    requires ParseMagnitude(rest) == n
    ensures ParseIntOrZero(s) == sign * n
  {
  }

  lemma ConcatAssoc(a: string, b: string, c: string)
    ensures a + b + c == a + (b + c)
  {
  }

  lemma ConcatEmpty(s: string)
    ensures "" + s + "" == s
  {
  }

  /** Reading back a number written by `${n}`: `parseInt` inverts number formatting,
      also with leading white space or a separating tail. */
  lemma ParseIntOfNatToString(lead: string, n: nat, tail: string)
    requires forall i :: 0 <= i < |lead| ==> IsJsSpace(lead[i])
    requires SeparatesNumber(tail)
    ensures ParseIntOrZero(lead + NatToString(n) + tail) == n
  {
    var body := NatToString(n) + tail;
    var s := lead + NatToString(n) + tail;
    ConcatAssoc(lead, NatToString(n), tail);
    assert body[0] == NatToString(n)[0];
    SplitSignAfterSpace(lead, body);
    MagnitudeOfNat(n, tail);
    ParseIntFromParts(s, 1, body, n);
  }

  /** The same with a minus sign in front: the value read is negated. */
  lemma ParseIntOfNegated(lead: string, n: nat, tail: string)
    requires forall i :: 0 <= i < |lead| ==> IsJsSpace(lead[i])
    requires SeparatesNumber(tail)
    ensures ParseIntOrZero(lead + "-" + NatToString(n) + tail) == -(n as int)
  {
    var body := NatToString(n) + tail;
    var s := lead + "-" + NatToString(n) + tail;
    ConcatAssoc(lead + "-", NatToString(n), tail);
    assert body[0] == NatToString(n)[0];
    SplitSignAfterMinus(lead, body);
    MagnitudeOfNat(n, tail);
    ParseIntFromParts(s, -1, body, n);
  }

  /** A count typed as a bare number reads back. */
  lemma ParseIntBare(n: nat)
    ensures ParseIntOrZero(NatToString(n)) == n
  {
    ConcatEmpty(NatToString(n));
    ParseIntOfNatToString("", n, "");
  }

  /** A count typed with blanks around it reads back. */
  lemma ParseIntPadded(n: nat)
    ensures ParseIntOrZero(" " + NatToString(n) + " ") == n
  {
    assert IsJsSpace(" "[0]);
    ParseIntOfNatToString(" ", n, " ");
  }

  /** A count typed with a minus sign reads back negative. */
  lemma ParseIntNegative(n: nat)
    ensures ParseIntOrZero("-" + NatToString(n)) == -(n as int)
  {
    ConcatEmpty("-" + NatToString(n));
    ConcatAssoc("", "-", NatToString(n));
    ParseIntOfNegated("", n, "");
  }

  /** A string with no digit after its sign (and no hex digit after `0x`) parses to 0. */
  lemma ParseIntNoDigits(s: string)
    requires !HasHexPrefix(SplitSign(s).1)
    requires |SplitSign(s).1| == 0 || !IsDecimalDigit(SplitSign(s).1[0])
    ensures ParseIntOrZero(s) == 0
  {
  }
}
