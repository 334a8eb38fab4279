/**
 * The digit conversions every screen of the dashboard uses: `toPersianNumber` replaces each
 * ASCII digit (`/\d/` without the `u` flag) by the Extended Arabic-Indic digit of the same value,
 * U+06F0..U+06F9 (۰..۹); `toEnglishNumber` maps those back to ASCII.
 */
module PersianDigits {
  import opened Wrappers
  import opened JsText

  /** The lookup string `'۰۱۲۳۴۵۶۷۸۹'`. */
  const PersianDigitString: string := "۰۱۲۳۴۵۶۷۸۹"

  predicate IsPersianDigit(c: char)
  {
    '۰' <= c <= '۹'
  }

  function PersianChar(c: char): (r: char)
  {
    if IsAsciiDigit(c) then PersianDigitString[c as int - '0' as int] else c
  }

  function EnglishChar(c: char): (r: char)
  {
    if IsPersianDigit(c) then DigitChar(c as int - '۰' as int) else c
  }

  lemma PersianDigitStringShape()
    ensures |PersianDigitString| == 10
    ensures forall d :: 0 <= d < 10 ==> PersianDigitString[d] as int == '۰' as int + d
  {
  }

  /** `toPersianNumber(s)`: each ASCII digit becomes its Persian digit, everything else stays. */
  function ToPersian(s: string): (r: string)
    ensures |r| == |s|
    ensures forall i :: 0 <= i < |s| ==> r[i] == PersianChar(s[i])
  {
    if s == [] then [] else ToPersian(s[..|s| - 1]) + [PersianChar(s[|s| - 1])]
  }

  /** `toEnglishNumber(s)`: each Persian digit becomes its ASCII digit, everything else stays. */
  function ToEnglish(s: string): (r: string)
    ensures |r| == |s|
    ensures forall i :: 0 <= i < |s| ==> r[i] == EnglishChar(s[i])
  {
    if s == [] then [] else ToEnglish(s[..|s| - 1]) + [EnglishChar(s[|s| - 1])]
  }

  predicate NoAsciiDigits(s: string)
  {
    forall i :: 0 <= i < |s| ==> !IsAsciiDigit(s[i])
  }

  predicate NoPersianDigits(s: string)
  {
    forall i :: 0 <= i < |s| ==> !IsPersianDigit(s[i])
  }

  /** Each conversion removes every digit of the other script, so applying it again changes nothing. */
  lemma ConversionsClearDigits(s: string)
    ensures NoAsciiDigits(ToPersian(s)) && NoPersianDigits(ToEnglish(s))
    ensures ToPersian(ToPersian(s)) == ToPersian(s) && ToEnglish(ToEnglish(s)) == ToEnglish(s)
  {
    PersianDigitStringShape();
  }

  /** toEnglishNumber undoes toPersianNumber on text that holds no Persian digits to begin with. */
  lemma EnglishOfPersian(s: string)
    requires NoPersianDigits(s)
    ensures ToEnglish(ToPersian(s)) == s
  {
    PersianDigitStringShape();
    assert forall i :: 0 <= i < |s| ==> EnglishChar(PersianChar(s[i])) == s[i];
  }

  /** toPersianNumber undoes toEnglishNumber on text that holds no ASCII digits to begin with. */
  lemma PersianOfEnglish(t: string)
    requires NoAsciiDigits(t)
    ensures ToPersian(ToEnglish(t)) == t
  {
    PersianDigitStringShape();
    assert forall i :: 0 <= i < |t| ==> PersianChar(EnglishChar(t[i])) == t[i];
  }

  /** `toPersianNumber(n)` for a number: its decimal digits in Persian script. */
  function PersianNumber(n: int): string
  {
    ToPersian(IntToString(n))
  }

  /** A Persian-rendered number reads back through toEnglishNumber and parseInt as itself. */
  lemma PersianNumberReadsBack(n: int)
    ensures ToEnglish(PersianNumber(n)) == IntToString(n)
    ensures ParseIntDecimal(ToEnglish(PersianNumber(n))) == Some(n)
  {
    EnglishOfPersian(IntToString(n));
    ParseIntDecimalToString(n);
  }

  /** Padding with '0' and then converting equals converting and then padding with '۰'. */
  lemma PersianPadCommutes(s: string, n: nat)
    ensures ToPersian(PadStart(s, n, '0')) == PadStart(ToPersian(s), n, '۰')
  {
    PersianDigitStringShape();
    var a := ToPersian(PadStart(s, n, '0'));
    var b := PadStart(ToPersian(s), n, '۰');
    assert |a| == |b|;
    forall i | 0 <= i < |a| ensures a[i] == b[i] {
      var k := |a| - |s|;
      if i >= k {
        assert PadStart(s, n, '0')[i] == s[i - k];
        assert b[i] == ToPersian(s)[i - k];
      }
    }
  }
}
