/**
 * The add-device dialog (src/components/devices/AddDeviceDialog.tsx): a form of name, type and
 * hourly rate whose type menu fills in the type's default rate, and a submit that hands a
 * non-blank form to the hook and resets it only when the hook reports success.
 */
module AddDeviceDialog {
  import opened Wrappers
  import opened JsText

  /** `deviceTypes`: the menu's type values with their default rates. */
  const DeviceTypes: seq<(string, int)> := [("pc", 50000), ("playstation", 80000), ("billiard", 120000), ("other", 50000)]

  /** The rate the menu fills in when none is found: `?.defaultRate || 50000`. */
  const FallbackRate: int := 50000

  /** `deviceTypes.find(t => t.value === type)?.defaultRate`. */
  function FindRate(table: seq<(string, int)>, t: string): (r: Option<int>)
    ensures r.None? <==> forall i :: 0 <= i < |table| ==> table[i].0 != t
    ensures r.Some? ==> exists i :: 0 <= i < |table| && table[i] == (t, r.value)
                          && forall j :: 0 <= j < i ==> table[j].0 != t
  {
    if table == [] then None
    else if table[0].0 == t then Some(table[0].1)
    else
      var r := FindRate(table[1..], t);
      assert forall i :: 1 <= i < |table| ==> table[i] == table[1..][i - 1];
      if r.Some? then
        var k :| 0 <= k < |table[1..]| && table[1..][k] == (t, r.value) && forall j :: 0 <= j < k ==> table[1..][j].0 != t;
        assert table[k + 1] == (t, r.value) && forall j :: 0 <= j < k + 1 ==> table[j].0 != t;
        r
      else r
  }

  function DefaultRate(t: string): int
  {
    match FindRate(DeviceTypes, t)
    case Some(rate) => if rate == 0 then FallbackRate else rate
    case None => FallbackRate
  }

  /** The table's rates, and 50000 for any type the menu does not list. */
  lemma DefaultRates(t: string)
    ensures DefaultRate("pc") == 50000 && DefaultRate("playstation") == 80000
    ensures DefaultRate("billiard") == 120000 && DefaultRate("other") == 50000
    ensures t !in ["pc", "playstation", "billiard", "other"] ==> DefaultRate(t) == 50000
    ensures DefaultRate(t) > 0
  {
    ListedRates();
    if t !in ["pc", "playstation", "billiard", "other"] {
      UnlistedRate(t);
    }
  }

  lemma ListedRates()
    ensures DefaultRate("pc") == 50000 && DefaultRate("playstation") == 80000
    ensures DefaultRate("billiard") == 120000 && DefaultRate("other") == 50000
  {
  }

  lemma UnlistedRate(t: string)
    requires t !in ["pc", "playstation", "billiard", "other"]
    ensures DefaultRate(t) == FallbackRate
  {
    assert forall i :: 0 <= i < |DeviceTypes| ==> DeviceTypes[i].0 != t;
  }

  /** `formData`: the type is whatever string the menu passed. */
  datatype Form = Form(name: string, deviceType: string, hourlyRate: int)

  const InitialForm: Form := Form("", "pc", 50000)

  /** `handleTypeChange(type)`: the type and its default rate; the name is kept. */
  function OnTypeChange(f: Form, t: string): (r: Form)
    ensures r.name == f.name && r.deviceType == t && r.hourlyRate == DefaultRate(t)
  {
    f.(deviceType := t, hourlyRate := DefaultRate(t))
  }

  /** The rate field's `onChange`: `parseInt(value) || 0`. */
  function OnRateInput(f: Form, typed: string): (r: Form)
    ensures r.name == f.name && r.deviceType == f.deviceType
    ensures ParseInt(typed).None? ==> r.hourlyRate == 0
    ensures ParseInt(typed).Some? ==> r.hourlyRate == ParseInt(typed).value
  {
    f.(hourlyRate := ParseInt(typed).GetOr(0))
  }

  /** The dialog's state: whether it is open and the form. */
  datatype DialogState = DialogState(open: bool, form: Form)

  /**
   * `handleSubmit`, given the success flag `onAdd` resolves to: the form handed to `onAdd` (none
   * for a blank name) and the state after. Success resets the form and closes the dialog;
   * failure keeps both.
   */
  function Submit(s: DialogState, addSucceeds: bool): (r: (Option<Form>, DialogState))
    ensures Trim(s.form.name) == [] ==> r == (None, s)
    ensures Trim(s.form.name) != [] ==> r.0 == Some(s.form)
    ensures Trim(s.form.name) != [] && addSucceeds ==> r.1 == DialogState(false, InitialForm)
    ensures Trim(s.form.name) != [] && !addSucceeds ==> r.1 == s
  {
    if Trim(s.form.name) == [] then (None, s)
    else (Some(s.form), if addSucceeds then DialogState(false, InitialForm) else s)
  }

  /** The form reaches `onAdd` as typed: the name is checked trimmed but passed untrimmed. */
  lemma SubmitPassesNameUntrimmed(s: DialogState, ok: bool)
    requires Trim(s.form.name) != [] && s.form.name[0] == ' '
    ensures Submit(s, ok).0.value.name != Trim(s.form.name)
  {
    TrimShape(s.form.name);
  }

  /** A name of whitespace only never reaches `onAdd`. */
  lemma BlankNameNeverAdded(s: DialogState, ok: bool)
    requires forall i :: 0 <= i < |s.form.name| ==> IsWhitespace(s.form.name[i])
    ensures Submit(s, ok).0.None? && Submit(s, ok).1 == s
  {
    TrimEmptyIff(s.form.name);
  }
}
