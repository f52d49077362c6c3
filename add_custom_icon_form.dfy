/** The custom-icon form (src/components/UI/AddCustomIconForm.tsx): two text fields and a
    submit that validates the trimmed values before handing them to `onAdd`. */
module IconForm {
  import opened Types
  import opened JsText

  const REQUIRED_MESSAGE := "Type and icon are required"

  /** The form's three pieces of component state; an empty `error` shows nothing. */
  datatype FormState = FormState(typeText: string, iconText: string, error: string)

  const InitialForm := FormState("", "", "")

  /** The form after a submit, and the `(type, icon)` pair passed to `onAdd`, if any. */
  datatype Submission = Submission(form: FormState, added: Nullable<(string, string)>)

  function SubmitStep(f: FormState): Submission
  {
    var t := Trim(f.typeText);
    var i := Trim(f.iconText);
    if t == [] || i == [] then Submission(f.(error := REQUIRED_MESSAGE), Null)
    else Submission(InitialForm, Some((t, i)))
  }

  class AddCustomIconForm {
    var typeText: string
    var iconText: string
    var error: string

    ghost function State(): FormState
      reads this
    {
      FormState(typeText, iconText, error)
    }

    constructor ()
      ensures State() == InitialForm
    {
      typeText := "";
      iconText := "";
      error := "";
    }

    /** The type field's `onChange`. */
    method SetType(value: string)
      modifies this
      ensures State() == old(State()).(typeText := value)
    {
      typeText := value;
    }

    /** The icon field's `onChange`. */
    method SetIcon(value: string)
      modifies this
      ensures State() == old(State()).(iconText := value)
    {
      iconText := value;
    }

    /** Submitting: `added` is what `onAdd` receives, `Null` when it is not called. */
    method HandleSubmit() returns (added: Nullable<(string, string)>)
      modifies this
      ensures Submission(State(), added) == SubmitStep(old(State()))
    {
      var t := Trim(typeText);
      var i := Trim(iconText);
      if t == [] || i == [] {
        error := REQUIRED_MESSAGE;
        return Null;
      }
      error := "";
      added := Some((t, i));
      typeText := "";
      iconText := "";
    }
  }

  /** A submit is refused exactly when one field is blank after trimming; then only the
      error message is set and `onAdd` is not called. */
  lemma SubmitRejectsBlankFields(f: FormState)
    ensures var r := SubmitStep(f);
      && (r.added == Null <==> AllWhiteSpace(f.typeText) || AllWhiteSpace(f.iconText))
      && (r.added == Null ==> r.form == f.(error := REQUIRED_MESSAGE) && r.form.error != "")
  {
  }

  /** An accepted submit passes the trimmed values, both non-empty and without surrounding
      white space, and resets the form (fields empty, no error). */
  lemma SubmitPassesTrimmedValues(f: FormState)
    requires !AllWhiteSpace(f.typeText) && !AllWhiteSpace(f.iconText)
    ensures var r := SubmitStep(f);
      && r.added == Some((Trim(f.typeText), Trim(f.iconText)))
      && var (t, i) := r.added.value;
         && t != [] && !IsJsWhiteSpace(t[0]) && !IsJsWhiteSpace(t[|t| - 1])
         && i != [] && !IsJsWhiteSpace(i[0]) && !IsJsWhiteSpace(i[|i| - 1])
         && r.form == FormState("", "", "")
  {
    var t, i := Trim(f.typeText), Trim(f.iconText);
    assert t != [] && i != [];
    assert SubmitStep(f) == Submission(InitialForm, Some((t, i)));
  }

  /** Validation and the values passed depend only on the trimmed text: padding either field
      with white space changes neither whether `onAdd` runs nor what it receives. */
  lemma SubmitIgnoresSurroundingWhiteSpace(f: FormState, p1: string, q1: string, p2: string, q2: string)
    requires AllWhiteSpace(p1) && AllWhiteSpace(q1) && AllWhiteSpace(p2) && AllWhiteSpace(q2)
    ensures SubmitStep(f.(typeText := p1 + f.typeText + q1, iconText := p2 + f.iconText + q2)).added
         == SubmitStep(f).added
  {
    TrimIgnoresSurroundingWhiteSpace(p1, f.typeText, q1);
    TrimIgnoresSurroundingWhiteSpace(p2, f.iconText, q2);
  }

  /** Trimming is idempotent, so resubmitting the values `onAdd` received passes them unchanged. */
  lemma SubmitOfTrimmedValuesIsStable(f: FormState)
    requires !AllWhiteSpace(f.typeText) && !AllWhiteSpace(f.iconText)
    ensures var t, i := Trim(f.typeText), Trim(f.iconText);
      SubmitStep(FormState(t, i, "")).added == Some((t, i))
  {
    TrimIdempotent(f.typeText);
    TrimIdempotent(f.iconText);
  }
}
