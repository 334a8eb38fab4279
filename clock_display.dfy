/**
 * What the two device cards share (src/components/dashboard/DeviceCardDB.tsx and
 * src/components/dashboard/DeviceCard.tsx): the split of an elapsed time into hours, minutes
 * and seconds with JavaScript's truncating `%` and `Math.floor`, the two ways the cards render
 * those fields in Persian digits, and the action buttons each device status offers.
 */
module ClockDisplay {
  import opened Wrappers
  import opened JsMath
  import opened JsText
  import opened PersianDigits
  import opened Types

  datatype ClockFields = ClockFields(hours: int, minutes: int, seconds: int)

  /** `Math.floor(e / 3600000)`, `Math.floor((e % 3600000) / 60000)`, `Math.floor((e % 60000) / 1000)`. */
  function Split(elapsed: int): ClockFields
  {
    ClockFields(
      FloorDiv(elapsed, 3600000),
      FloorDiv(Rem(elapsed, 3600000), 60000),
      FloorDiv(Rem(elapsed, 60000), 1000))
  }

  function MsOf(f: ClockFields): int
  {
    f.hours * 3600000 + f.minutes * 60000 + f.seconds * 1000
  }

  /**
   * A non-negative elapsed time splits into whole hours, minutes under 60 and seconds under 60
   * that add up to it, less the milliseconds under one second.
   */
  lemma SplitBounds(elapsed: int)
    requires elapsed >= 0
    ensures var f := Split(elapsed);
      f.hours >= 0 && 0 <= f.minutes < 60 && 0 <= f.seconds < 60
      && MsOf(f) <= elapsed < MsOf(f) + 1000
  {
    var h := FloorDiv(elapsed, 3600000);
    var r1 := Rem(elapsed, 3600000);
    RemOfNatural(elapsed, 3600000);
    RemOfNatural(elapsed, 60000);
    var m := FloorDiv(r1, 60000);
    var r2 := r1 - m * 60000;
    assert 0 <= r2 < 60000;
    assert elapsed == (h * 60 + m) * 60000 + r2;
    assert Rem(elapsed, 60000) == r2 by {
      assert elapsed % 60000 == r2;
    }
  }

  /** The split is the only such decomposition: fields within range are read back exactly. */
  lemma SplitOfFields(h: int, m: int, s: int, ms: int)
    requires h >= 0 && 0 <= m < 60 && 0 <= s < 60 && 0 <= ms < 1000
    ensures Split(MsOf(ClockFields(h, m, s)) + ms) == ClockFields(h, m, s)
  {
    var e := MsOf(ClockFields(h, m, s)) + ms;
    FloorDivUnique(e, 3600000, h);
    assert Rem(e, 3600000) == m * 60000 + s * 1000 + ms by {
      assert e % 3600000 == m * 60000 + s * 1000 + ms;
    }
    FloorDivUnique(m * 60000 + s * 1000 + ms, 60000, m);
    assert Rem(e, 60000) == s * 1000 + ms by {
      assert e == (h * 60 + m) * 60000 + (s * 1000 + ms);
      assert e % 60000 == s * 1000 + ms;
    }
    FloorDivUnique(s * 1000 + ms, 1000, s);
  }

  /**
   * A negative elapsed time (a start time ahead of the clock) gives negative hours and minutes
   * and seconds between -60 and 0: the card then shows minus signs.
   */
  lemma SplitNegative(elapsed: int)
    requires elapsed < 0
    ensures var f := Split(elapsed);
      f.hours < 0 && -60 <= f.minutes <= 0 && -60 <= f.seconds <= 0
  {
  }

  /** DeviceCardDB's field: `n.toString().padStart(2, '0')`, then Persian digits. */
  function PadThenPersian(n: int): string
  {
    ToPersian(PadStart(IntToString(n), 2, '0'))
  }

  /** DeviceCard's field: Persian digits, then `.padStart(2, '۰')`. */
  function PersianThenPad(n: int): string
  {
    PadStart(ToPersian(IntToString(n)), 2, '۰')
  }

  function TextOf(f: ClockFields, field: int -> string): string
  {
    field(f.hours) + ":" + field(f.minutes) + ":" + field(f.seconds)
  }

  /** The two cards' renderings agree for every number, so the two clocks show the same text. */
  lemma RenderingsAgree(f: ClockFields)
    ensures TextOf(f, PadThenPersian) == TextOf(f, PersianThenPad)
  {
    PersianPadCommutes(IntToString(f.hours), 2);
    PersianPadCommutes(IntToString(f.minutes), 2);
    PersianPadCommutes(IntToString(f.seconds), 2);
  }

  /** A field of a non-negative number is at least two Persian digits and reads back as that number. */
  lemma FieldReadsBack(n: int)
    requires n >= 0
    ensures |PadThenPersian(n)| >= 2
    ensures forall i :: 0 <= i < |PadThenPersian(n)| ==> IsPersianDigit(PadThenPersian(n)[i])
    ensures ParseIntDecimal(ToEnglish(PadThenPersian(n))) == Some(n)
  {
    FieldDigits(n);
    FieldParses(n);
  }

  lemma FieldDigits(n: int)
    requires n >= 0
    ensures forall i :: 0 <= i < |PadThenPersian(n)| ==> IsPersianDigit(PadThenPersian(n)[i])
  {
    var x := PadStart(IntToString(n), 2, '0');
    PaddedDigits(n);
    PersianOfDigits(x);
  }

  lemma FieldParses(n: int)
    requires n >= 0
    ensures ParseIntDecimal(ToEnglish(PadThenPersian(n))) == Some(n)
  {
    var x := PadStart(IntToString(n), 2, '0');
    PaddedDigits(n);
    assert ToEnglish(ToPersian(x)) == x by {
      EnglishOfPersian(x);
    }
    PaddedDecimalParses(n);
  }

  lemma PaddedDigits(n: int)
    requires n >= 0
    ensures forall i :: 0 <= i < |PadStart(IntToString(n), 2, '0')| ==> IsAsciiDigit(PadStart(IntToString(n), 2, '0')[i])
  {
    var s := IntToString(n);
    var x := PadStart(s, 2, '0');
    forall i | 0 <= i < |x| ensures IsAsciiDigit(x[i]) {
      if i >= |x| - |s| {
        assert x[i] == x[|x| - |s|..][i - (|x| - |s|)];
      }
    }
  }

  lemma PersianOfDigits(x: string)
    requires forall i :: 0 <= i < |x| ==> IsAsciiDigit(x[i])
    ensures forall i :: 0 <= i < |x| ==> IsPersianDigit(ToPersian(x)[i])
  {
    PersianDigitStringShape();
  }

  /** `parseInt` ignores the leading zero the padding adds. */
  lemma PaddedDecimalParses(n: int)
    requires n >= 0
    ensures ParseIntDecimal(PadStart(IntToString(n), 2, '0')) == Some(n)
  {
    var x := PadStart(IntToString(n), 2, '0');
    if n < 10 {
      assert IntToString(n) == [DigitChar(n)];
      assert x == ['0', DigitChar(n)];
      assert TrimStart(x) == x by {
        assert !IsWhitespace(x[0]);
      }
      DigitPrefixAll(x, 10);
      assert x[..1] == ['0'] && x[..1][..0] == [];
      assert DigitsValue(x[..1], 10) == 0;
      assert DigitValue(x[1], 10) == Some(n);
      assert DigitsValue(x, 10) == n;
    } else {
      assert x == IntToString(n);
      ParseIntDecimalToString(n);
    }
  }

  /** The clock of a non-negative elapsed time reads back as the split fields. */
  lemma ClockReadsBack(elapsed: int)
    requires elapsed >= 0
    ensures var f := Split(elapsed);
      var t := TextOf(f, PadThenPersian);
      var hs, ms, ss := PadThenPersian(f.hours), PadThenPersian(f.minutes), PadThenPersian(f.seconds);
      t == hs + ":" + ms + ":" + ss
      && ParseIntDecimal(ToEnglish(hs)) == Some(f.hours)
      && ParseIntDecimal(ToEnglish(ms)) == Some(f.minutes)
      && ParseIntDecimal(ToEnglish(ss)) == Some(f.seconds)
      && |ms| == 2 && |ss| == 2
  {
    SplitBounds(elapsed);
    var f := Split(elapsed);
    FieldReadsBack(f.hours);
    FieldReadsBack(f.minutes);
    FieldReadsBack(f.seconds);
    TwoDigitField(f.minutes);
    TwoDigitField(f.seconds);
  }

  lemma TwoDigitField(n: int)
    requires 0 <= n < 100
    ensures |PadThenPersian(n)| == 2
  {
    if n >= 10 {
      assert NatToString(n / 10) == [DigitChar(n / 10)];
      assert IntToString(n) == NatToString(n / 10) + [DigitChar(n % 10)];
    }
  }

  /** `useState('۰۰:۰۰:۰۰')`: the clock before the first tick. */
  const InitialClock: string := "۰۰:۰۰:۰۰"

  lemma InitialClockIsZero()
    ensures InitialClock == TextOf(Split(0), PadThenPersian)
  {
    SplitZero();
    ZeroField();
  }

  lemma SplitZero()
    ensures Split(0) == ClockFields(0, 0, 0)
  {
    FloorDivUnique(0, 3600000, 0);
    RemUnique(0, 3600000, 0, 0);
    FloorDivUnique(0, 60000, 0);
    RemUnique(0, 60000, 0, 0);
    FloorDivUnique(0, 1000, 0);
  }

  lemma ZeroField()
    ensures PadThenPersian(0) == "۰۰"
  {
    assert IntToString(0) == "0";
    var x := PadStart("0", 2, '0');
    assert x == "00";
    PersianDigitStringShape();
    var p := ToPersian(x);
    assert p[0] == '۰' && p[1] == '۰';
  }

  // ---------------------------------------------------------------------------------------
  // Action buttons

  /** The buttons under a card; `ServiceButton` is rendered disabled. */
  datatype ActionButton = StartButton | PauseButton(resume: bool) | StopButton | ServiceButton

  /** The action row for a status; `paused` is `currentSession?.is_paused` (no session: false). */
  function Buttons(status: DeviceStatus, paused: bool): seq<ActionButton>
  {
    match status
    case Available => [StartButton]
    case Occupied => [PauseButton(paused), StopButton]
    case Maintenance => [ServiceButton]
  }

  predicate Clickable(b: ActionButton)
  {
    !b.ServiceButton?
  }

  /**
   * Start is offered exactly when the device is free, pause and stop exactly when it is occupied,
   * the pause button reads "resume" exactly when the session is paused, and a device in service
   * offers nothing clickable.
   */
  lemma ButtonsPerStatus(status: DeviceStatus, paused: bool)
    ensures var r := Buttons(status, paused);
      (StartButton in r <==> status == Available)
      && (StopButton in r <==> status == Occupied)
      && (PauseButton(paused) in r <==> status == Occupied)
      && (forall b :: b in r && b.PauseButton? ==> b.resume == paused)
      && (ServiceButton in r <==> status == Maintenance)
      && (status == Maintenance ==> forall b :: b in r ==> !Clickable(b))
  {
  }
}
