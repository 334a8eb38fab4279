/**
 * The device edit dialog (src/components/devices/EditDeviceDialog.tsx): a name field and a rate
 * field kept in ASCII digits and shown in Persian digits, reset from the device whenever the
 * dialog opens, and a submit that saves only a non-blank name and a positive whole rate.
 */
module EditDeviceDialog {
  import opened Wrappers
  import opened JsText
  import opened PersianDigits

  /** The dialog's `name` and `rate` state. */
  datatype Form = Form(name: string, rate: string)

  /** What the open effect sets: the device's name and `hourlyRate.toString()`. */
  function OnOpen(deviceName: string, hourlyRate: int): Form
  {
    Form(deviceName, IntToString(hourlyRate))
  }

  /** The rate field shows `toPersianNumber(rate)`. */
  function RateShown(f: Form): string
  {
    ToPersian(f.rate)
  }

  /** The rate field's `onChange`: what is typed is stored through `toEnglishNumber`. */
  function OnRateInput(f: Form, typed: string): Form
  {
    f.(rate := ToEnglish(typed))
  }

  function OnNameInput(f: Form, typed: string): Form
  {
    f.(name := typed)
  }

  /**
   * `handleSubmit`: the call `onSave(name.trim(), parsedRate)` (after which the dialog closes),
   * or None when the trimmed name is empty or the rate is not a positive number.
   */
  function Submit(f: Form): (r: Option<(string, int)>)
    ensures r.Some? <==> Trim(f.name) != [] && ParseIntDecimal(ToEnglish(f.rate)).Some? && ParseIntDecimal(ToEnglish(f.rate)).value > 0
    ensures r.Some? ==> r.value == (Trim(f.name), ParseIntDecimal(ToEnglish(f.rate)).value)
  {
    var parsed := ParseIntDecimal(ToEnglish(f.rate));
    if Trim(f.name) != [] && parsed.Some? && parsed.value > 0 then Some((Trim(f.name), parsed.value)) else None
  }

  /** A submit never saves a name made only of whitespace, nor a rate of zero or less. */
  lemma SubmitRejectsBlankOrNonPositive(f: Form)
    ensures (forall i :: 0 <= i < |f.name| ==> IsWhitespace(f.name[i])) ==> Submit(f).None?
    ensures Submit(f).Some? ==> Submit(f).value.1 > 0 && Trim(Submit(f).value.0) == Submit(f).value.0
  {
    TrimEmptyIff(f.name);
    if Submit(f).Some? {
      TrimShape(f.name);
      TrimIdempotent(f.name);
    }
  }

  lemma TrimIdempotent(s: string)
    ensures Trim(Trim(s)) == Trim(s)
  {
    var t := Trim(s);
    if t != [] {
      assert TrimStart(t) == t;
      assert TrimEnd(t) == t;
    } else {
      assert TrimStart(t) == [] && TrimEnd([]) == [];
    }
  }

  /**
   * Opening the dialog on a device with a non-blank name and a positive rate and saving without
   * edits saves the trimmed name and the very same rate.
   */
  lemma OpenThenSaveUnchanged(deviceName: string, hourlyRate: int)
    requires Trim(deviceName) != [] && hourlyRate > 0
    ensures Submit(OnOpen(deviceName, hourlyRate)) == Some((Trim(deviceName), hourlyRate))
  {
    var s := IntToString(hourlyRate);
    assert NoPersianDigits(s) by {
      assert forall i :: 0 <= i < |s| ==> IsAsciiDigit(s[i]);
    }
    assert ToEnglish(s) == s by {
      assert forall i :: 0 <= i < |s| ==> EnglishChar(s[i]) == s[i];
    }
    ParseIntDecimalToString(hourlyRate);
  }

  /** Typing back what the rate field shows leaves the stored rate as it was. */
  lemma RetypingTheShownRate(f: Form)
    requires NoPersianDigits(f.rate)
    ensures OnRateInput(f, RateShown(f)) == f
  {
    EnglishOfPersian(f.rate);
  }

  /** A rate typed in Persian digits is saved as its value. */
  lemma PersianTypedRateIsSaved(f: Form, v: int)
    requires Trim(f.name) != [] && v > 0
    ensures Submit(OnRateInput(f, PersianNumber(v))) == Some((Trim(f.name), v))
  {
    var g := OnRateInput(f, PersianNumber(v));
    PersianNumberReadsBack(v);
    ConversionsClearDigits(PersianNumber(v));
    assert ToEnglish(g.rate) == g.rate;
  }
}
