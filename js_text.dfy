/**
 * The JavaScript string primitives the dashboard relies on, for strings of Unicode scalar values:
 * `trim`, `includes`, `padStart`, `Array.prototype.join`, `Number.prototype.toString` on
 * integers and `parseInt` (ECMAScript's global parseInt, with and without radix 10).
 */
module JsText {
  import opened Wrappers

  /** ECMAScript WhiteSpace and LineTerminator code points (what `trim` and `parseInt` skip). */
  predicate IsWhitespace(c: char)
  {
    c == ' ' || c == '\t' || c == '\n' || c == '\r' || c == '\U{0B}' || c == '\U{0C}'
    || c == '\U{A0}' || c == '\U{1680}' || ('\U{2000}' <= c <= '\U{200A}')
    || c == '\U{2028}' || c == '\U{2029}' || c == '\U{202F}' || c == '\U{205F}'
    || c == '\U{3000}' || c == '\U{FEFF}'
  }

  predicate IsAsciiDigit(c: char)
  {
    '0' <= c <= '9'
  }

  function TrimStart(s: string): (r: string)
    ensures |r| <= |s| && r == s[|s| - |r|..]
    ensures r != [] ==> !IsWhitespace(r[0])
    ensures forall i :: 0 <= i < |s| - |r| ==> IsWhitespace(s[i])
  {
    if s != [] && IsWhitespace(s[0]) then TrimStart(s[1..]) else s
  }

  function TrimEnd(s: string): (r: string)
    ensures |r| <= |s| && r == s[..|r|]
    ensures r != [] ==> !IsWhitespace(r[|r| - 1])
    ensures forall i :: |r| <= i < |s| ==> IsWhitespace(s[i])
  {
    if s != [] && IsWhitespace(s[|s| - 1]) then TrimEnd(s[..|s| - 1]) else s
  }

  /** `s.trim()`. */
  function Trim(s: string): string
  {
    TrimEnd(TrimStart(s))
  }

  /** `s.trim()` is empty exactly when every character of s is whitespace. */
  lemma TrimEmptyIff(s: string)
    ensures Trim(s) == [] <==> forall i :: 0 <= i < |s| ==> IsWhitespace(s[i])
  {
    var t := TrimStart(s);
    if Trim(s) == [] {
      assert |t| == 0;
    } else {
      var r := Trim(s);
      assert !IsWhitespace(r[0]);
      assert r[0] == t[0] == s[|s| - |t|];
    }
  }

  /** The trimmed string has no whitespace at either end and is a slice of the original. */
  lemma TrimShape(s: string)
    ensures var r := Trim(s);
      (r != [] ==> !IsWhitespace(r[0]) && !IsWhitespace(r[|r| - 1]))
      && exists k :: OccursAt(s, r, k)
  {
    var t := TrimStart(s);
    var r := Trim(s);
    var k := |s| - |t|;
    assert r == t[..|r|];
    assert t == s[k..];
    assert r == s[k..k + |r|];
    assert OccursAt(s, r, k);
  }

  /** q occurs in s starting at offset k. */
  predicate OccursAt(s: string, q: string, k: int)
  {
    0 <= k && k + |q| <= |s| && s[k..k + |q|] == q
  }

  predicate IsPrefix(p: string, s: string)
  {
    |p| <= |s| && s[..|p|] == p
  }

  /** `s.includes(q)`. */
  predicate Contains(s: string, q: string)
  {
    IsPrefix(q, s) || (s != [] && Contains(s[1..], q))
  }

  /** `includes` finds q as a slice of s at some offset. */
  lemma {:induction false} ContainsIff(s: string, q: string)
    ensures Contains(s, q) <==> exists k :: OccursAt(s, q, k)
  {
    if IsPrefix(q, s) {
      assert OccursAt(s, q, 0);
    } else if s == [] {
    } else {
      ContainsIff(s[1..], q);
      if exists k :: OccursAt(s, q, k) {
        var k :| OccursAt(s, q, k);
        assert k != 0;
        SliceOfTail(s, k - 1, |q|);
        assert OccursAt(s[1..], q, k - 1);
      }
      if Contains(s[1..], q) {
        var k :| OccursAt(s[1..], q, k);
        SliceOfTail(s, k, |q|);
        assert OccursAt(s, q, k + 1);
      }
    }
  }

  /** A slice of the tail is the slice one further along. */
  lemma SliceOfTail(s: string, k: int, n: int)
    requires 0 <= k && 0 <= n && 1 + k + n <= |s|
    ensures s[1..][k..k + n] == s[k + 1..k + 1 + n]
  {
    var a, b := s[1..][k..k + n], s[k + 1..k + 1 + n];
    forall i | 0 <= i < n ensures a[i] == b[i] {
      assert a[i] == s[1..][k + i] == s[k + 1 + i];
    }
  }

  /** Every string includes the empty string. */
  lemma ContainsEmpty(s: string)
    ensures Contains(s, "")
  {
    assert IsPrefix("", s);
  }

  function Repeat(c: char, n: nat): (r: string)
    ensures |r| == n && forall i :: 0 <= i < n ==> r[i] == c
  {
    if n == 0 then [] else [c] + Repeat(c, n - 1)
  }

  /** `s.padStart(n, c)` with a one-character pad. */
  function PadStart(s: string, n: nat, c: char): (r: string)
    ensures |r| == if |s| >= n then |s| else n
    ensures r[|r| - |s|..] == s
    ensures forall i :: 0 <= i < |r| - |s| ==> r[i] == c
  {
    if |s| >= n then s else Repeat(c, n - |s|) + s
  }

  /** `parts.join(sep)`. */
  function Join(parts: seq<string>, sep: string): string
  {
    if parts == [] then ""
    else if |parts| == 1 then parts[0]
    else Join(parts[..|parts| - 1], sep) + sep + parts[|parts| - 1]
  }

  function DigitChar(d: int): (c: char)
    requires 0 <= d < 10
    ensures IsAsciiDigit(c) && c as int - '0' as int == d
  {
    ('0' as int + d) as char
  }

  /** Decimal digits of a natural number, most significant first, no leading zeros. */
  function NatToString(n: nat): (r: string)
    ensures |r| >= 1
    ensures forall i :: 0 <= i < |r| ==> IsAsciiDigit(r[i])
    ensures n > 0 ==> r[0] != '0'
  {
    if n < 10 then [DigitChar(n)] else NatToString(n / 10) + [DigitChar(n % 10)]
  }

  /** `n.toString()` for an integer n. */
  function IntToString(n: int): (r: string)
    ensures r != []
    ensures n >= 0 ==> forall i :: 0 <= i < |r| ==> IsAsciiDigit(r[i])
    ensures n < 0 ==> r[0] == '-' && forall i :: 1 <= i < |r| ==> IsAsciiDigit(r[i])
  {
    if n < 0 then "-" + NatToString(-n) else NatToString(n)
  }

  /** Digits of a radix: 10 or 16 (the two parseInt modes the dashboard reaches). */
  function DigitValue(c: char, radix: int): Option<int>
  {
    if '0' <= c <= '9' && c as int - '0' as int < radix then Some(c as int - '0' as int)
    else if radix == 16 && 'a' <= c <= 'f' then Some(c as int - 'a' as int + 10)
    else if radix == 16 && 'A' <= c <= 'F' then Some(c as int - 'A' as int + 10)
    else None
  }

  /** The longest prefix of s made of radix digits. */
  function DigitPrefix(s: string, radix: int): (r: string)
    ensures |r| <= |s| && r == s[..|r|]
    ensures forall i :: 0 <= i < |r| ==> DigitValue(r[i], radix).Some?
    ensures |r| < |s| ==> DigitValue(s[|r|], radix).None?
  {
    if s != [] && DigitValue(s[0], radix).Some? then [s[0]] + DigitPrefix(s[1..], radix) else []
  }

  /** The number a string of radix digits denotes. */
  function DigitsValue(z: string, radix: int): int
    requires radix > 0
    requires forall i :: 0 <= i < |z| ==> DigitValue(z[i], radix).Some?
  {
    if z == [] then 0 else DigitsValue(z[..|z| - 1], radix) * radix + DigitValue(z[|z| - 1], radix).value
  }

  /** Steps 4-11 of parseInt once the radix is fixed: nothing parsed is NaN, shown as None. */
  function ParseDigits(s: string, sign: int, radix: int): Option<int>
    requires radix > 0
  {
    var z := DigitPrefix(s, radix);
    if z == [] then None else Some(sign * DigitsValue(z, radix))
  }

  function Unsigned(s: string): string
  {
    if s != [] && (s[0] == '-' || s[0] == '+') then s[1..] else s
  }

  function Sign(s: string): int
  {
    if s != [] && s[0] == '-' then -1 else 1
  }

  /** `parseInt(s, 10)`. */
  function ParseIntDecimal(s: string): Option<int>
  {
    var t := TrimStart(s);
    ParseDigits(Unsigned(t), Sign(t), 10)
  }

  /** `parseInt(s)` with no radix: a leading `0x`/`0X` switches to hexadecimal. */
  function ParseInt(s: string): Option<int>
  {
    var t := TrimStart(s);
    var u := Unsigned(t);
    if |u| >= 2 && u[0] == '0' && (u[1] == 'x' || u[1] == 'X') then ParseDigits(u[2..], Sign(t), 16)
    else ParseDigits(u, Sign(t), 10)
  }

  lemma {:induction false} NatToStringValue(n: nat)
    ensures forall i :: 0 <= i < |NatToString(n)| ==> DigitValue(NatToString(n)[i], 10).Some?
    ensures DigitsValue(NatToString(n), 10) == n
  {
    var r := NatToString(n);
    if n >= 10 {
      NatToStringValue(n / 10);
      assert r[..|r| - 1] == NatToString(n / 10);
    }
  }

  /** toString's output starts with no whitespace, and its sign and magnitude are as written. */
  lemma IntToStringShape(n: int)
    ensures TrimStart(IntToString(n)) == IntToString(n)
    ensures Unsigned(IntToString(n)) == NatToString(if n < 0 then -n else n)
    ensures Sign(IntToString(n)) == if n < 0 then -1 else 1
  {
    var s := IntToString(n);
    if n < 0 {
      assert s == "-" + NatToString(-n);
      assert s[0] == '-';
      assert s[1..] == NatToString(-n);
    } else {
      assert s == NatToString(n);
      assert IsAsciiDigit(s[0]);
    }
    assert !IsWhitespace(s[0]);
  }

  lemma ParseDigitsOfNat(m: nat, sign: int)
    ensures ParseDigits(NatToString(m), sign, 10) == Some(sign * m)
  {
    NatToStringValue(m);
    DigitPrefixAll(NatToString(m), 10);
  }

  /** parseInt(s, 10) reads back what toString wrote. */
  lemma ParseIntDecimalToString(n: int)
    ensures ParseIntDecimal(IntToString(n)) == Some(n)
  {
    IntToStringShape(n);
    ParseDigitsOfNat(if n < 0 then -n else n, if n < 0 then -1 else 1);
  }

  /** parseInt(s) reads back what toString wrote: no output of toString looks hexadecimal. */
  lemma ParseIntToString(n: int)
    ensures ParseInt(IntToString(n)) == Some(n)
  {
    IntToStringShape(n);
    var m := if n < 0 then -n else n;
    var u := NatToString(m);
    assert |u| >= 2 ==> u[0] != '0';
    ParseDigitsOfNat(m, if n < 0 then -1 else 1);
  }

  lemma {:induction false} DigitPrefixAll(s: string, radix: int)
    requires forall i :: 0 <= i < |s| ==> DigitValue(s[i], radix).Some?
    ensures DigitPrefix(s, radix) == s
  {
    if s != [] {
      DigitPrefixAll(s[1..], radix);
    }
  }
}
