/**
 * The duration line of the session invoice (src/components/devices/InvoiceDialog.tsx,
 * `formatDuration`): hours, minutes and, for sessions under an hour, seconds, in Persian digits
 * and joined with " و "; a duration with no part to show reads "۰ ثانیه".
 */
module InvoiceDialog {
  import opened JsMath
  import opened JsText
  import opened PersianDigits

  datatype DurationFields = DurationFields(hours: int, minutes: int, secs: int)

  /** `Math.floor(s / 3600)`, `Math.floor((s % 3600) / 60)` and `s % 60`, with JavaScript's `%`. */
  function Fields(seconds: int): DurationFields
  {
    DurationFields(FloorDiv(seconds, 3600), FloorDiv(Rem(seconds, 3600), 60), Rem(seconds, 60))
  }

  /** A non-negative duration splits exactly into hours, minutes under 60 and seconds under 60. */
  lemma FieldsExact(seconds: int)
    requires seconds >= 0
    ensures var f := Fields(seconds);
      f.hours * 3600 + f.minutes * 60 + f.secs == seconds
      && f.hours >= 0 && 0 <= f.minutes < 60 && 0 <= f.secs < 60
  {
    var h := FloorDiv(seconds, 3600);
    RemUnique(seconds, 3600, h, seconds - h * 3600);
    var r1 := seconds - h * 3600;
    var m := FloorDiv(r1, 60);
    var s := r1 - m * 60;
    assert seconds == (h * 60 + m) * 60 + s;
    RemUnique(seconds, 60, h * 60 + m, s);
  }

  /** The parts the invoice may show. */
  datatype DurationPart = HoursPart(n: int) | MinutesPart(n: int) | SecondsPart(n: int)

  /** The parts `formatDuration` pushes, in push order. */
  function Parts(seconds: int): seq<DurationPart>
  {
    var f := Fields(seconds);
    (if f.hours > 0 then [HoursPart(f.hours)] else [])
    + (if f.minutes > 0 then [MinutesPart(f.minutes)] else [])
    + (if f.secs > 0 && f.hours == 0 then [SecondsPart(f.secs)] else [])
  }

  function Render(p: DurationPart): string
  {
    match p
    case HoursPart(n) => PersianNumber(n) + " ساعت"
    case MinutesPart(n) => PersianNumber(n) + " دقیقه"
    case SecondsPart(n) => PersianNumber(n) + " ثانیه"
  }

  /** `parts.join(' و ')` over the rendered parts. */
  function JoinParts(parts: seq<DurationPart>): string
  {
    if parts == [] then ""
    else if |parts| == 1 then Render(parts[0])
    else JoinParts(parts[..|parts| - 1]) + " و " + Render(parts[|parts| - 1])
  }

  /** `parts.join(' و ') || '۰ ثانیه'`. */
  function DurationText(seconds: int): string
  {
    var parts := Parts(seconds);
    if parts == [] then "۰ ثانیه" else JoinParts(parts)
  }

  function Rank(p: DurationPart): int
  {
    match p
    case HoursPart(_) => 0
    case MinutesPart(_) => 1
    case SecondsPart(_) => 2
  }

  /**
   * The hour part is shown exactly when there are hours, the minute part exactly when there are
   * minutes, and the seconds part exactly when there are seconds and no hours; the parts come in
   * the order hours, minutes, seconds and there are never more than two of them.
   */
  lemma PartsShown(seconds: int)
    ensures var f := Fields(seconds);
      var p := Parts(seconds);
      (HoursPart(f.hours) in p <==> f.hours > 0)
      && (MinutesPart(f.minutes) in p <==> f.minutes > 0)
      && (SecondsPart(f.secs) in p <==> f.secs > 0 && f.hours == 0)
      && (forall i, j :: 0 <= i < j < |p| ==> Rank(p[i]) < Rank(p[j]))
      && |p| <= 2
  {
  }

  /** Every part shows a positive count. */
  lemma PartsArePositive(seconds: int)
    ensures forall i :: 0 <= i < |Parts(seconds)| ==> Parts(seconds)[i].n > 0
  {
  }

  /** A duration of zero or less has no part to show and reads "۰ ثانیه". */
  lemma NoPartsReadsZero(seconds: int)
    requires seconds <= 0
    ensures Parts(seconds) == [] && DurationText(seconds) == "۰ ثانیه"
  {
  }

  /** Sessions of an hour or more never show seconds. */
  lemma LongSessionsHideSeconds(seconds: int)
    requires seconds >= 3600
    ensures forall i :: 0 <= i < |Parts(seconds)| ==> !Parts(seconds)[i].SecondsPart?
  {
    assert Fields(seconds).hours >= 1 by {
      FieldsExact(seconds);
    }
  }

  /** `formatDuration(seconds)`, pushing the parts as the dialog does. */
  method FormatDuration(seconds: int) returns (text: string)
    ensures text == DurationText(seconds)
  {
    var hours := FloorDiv(seconds, 3600);
    var minutes := FloorDiv(Rem(seconds, 3600), 60);
    var secs := Rem(seconds, 60);
    var parts: seq<DurationPart> := [];
    if hours > 0 {
      parts := parts + [HoursPart(hours)];
    }
    if minutes > 0 {
      parts := parts + [MinutesPart(minutes)];
    }
    if secs > 0 && hours == 0 {
      parts := parts + [SecondsPart(secs)];
    }
    assert parts == Parts(seconds);
    if parts == [] {
      text := "۰ ثانیه";
    } else {
      text := JoinParts(parts);
    }
  }
}
