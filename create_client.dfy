/** The "Add New Client" dialog: its open flag, form record and error map, the
    handlers that change them, and the create requests it dispatches. */
module CreateClientDialog {
  import opened EmailFormat
  import opened ClientForm

  /** A snapshot of the dialog. `sent` lists the payloads handed to
      `createClient`, oldest first. */
  datatype Dialog = Dialog(open: bool, form: FormData, errors: Errors, sent: seq<Payload>)

  /** `handleChange(field, value)`: overwrite one field of the form. */
  function ChangeStep(d: Dialog, f: Field, v: string): (d': Dialog)
    ensures d'.form.Get(f) == v
    ensures forall g :: g != f ==> d'.form.Get(g) == d.form.Get(g)
    ensures d'.errors == d.errors && d'.open == d.open && d'.sent == d.sent
  {
    d.(form := d.form.With(f, v))
  }

  /** `handleClose`: close the dialog and reset the form and its errors. */
  function CloseStep(d: Dialog): (d': Dialog)
    ensures !d'.open
    ensures forall f :: d'.form.Get(f) == ""
    ensures d'.errors == map[]
    ensures d'.sent == d.sent
  {
    Dialog(false, INITIAL_STATE, map[], d.sent)
  }

  /** `handleSubmit`: validate; on any error show the errors and stop, otherwise
      dispatch one create request and close. */
  function SubmitStep(d: Dialog): (d': Dialog)
    ensures Validate(d.form) != map[] ==>
      d'.errors == Validate(d.form) && d'.form == d.form && d'.open == d.open && d'.sent == d.sent
    ensures Validate(d.form) == map[] ==>
      d'.sent == d.sent + [BuildPayload(d.form)] &&
      d'.form == INITIAL_STATE && d'.errors == map[] && !d'.open
  {
    var errs := Validate(d.form);
    if errs != map[] then d.(errors := errs)
    else CloseStep(d.(sent := d.sent + [BuildPayload(d.form)]))
  }

  /** Closing twice is closing once, and the result does not depend on the
      open flag, the form or the errors before the close. */
  lemma CloseIdempotent(d: Dialog, e: Dialog)
    requires e.sent == d.sent
    ensures CloseStep(CloseStep(d)) == CloseStep(d)
    ensures CloseStep(e) == CloseStep(d)
  {
  }

  /** A submit sends a request exactly when the required fields are filled in
      and the email is empty or matches the regex; it never sends more than one. */
  lemma SubmitSendsIffValid(d: Dialog)
    ensures var d' := SubmitStep(d);
      (|d'.sent| == |d.sent| + 1 <==>
        RequiredFilled(d.form) && (d.form.email == "" || MatchesEmailRegex(d.form.email))) &&
      (|d'.sent| == |d.sent| <==>
        !(RequiredFilled(d.form) && (d.form.email == "" || MatchesEmailRegex(d.form.email))))
  {
  }

  /** A failed submit keeps no stale error: every entry shown names a field that
      breaks its rule in the current form, with that field's message. */
  lemma FailedSubmitErrorsAreCurrent(d: Dialog, f: Field)
    requires Validate(d.form) != map[]
    requires f in SubmitStep(d).errors
    ensures !FieldOk(d.form, f)
    ensures SubmitStep(d).errors[f] == Message(f)
  {
  }

  /** The request a successful submit sends carries the form unchanged, except
      that an empty email is left out; the form is recoverable from it. */
  lemma SubmittedPayload(d: Dialog)
    requires Validate(d.form) == map[]
    ensures var p := SubmitStep(d).sent[|d.sent|];
      (forall f :: f != Email ==> f in p && p[f] == d.form.Get(f) && p[f] != "") &&
      (Email in p <==> d.form.email != "") &&
      FromPayload(p) == d.form
  {
  }

  /** A successful submit cannot be repeated by pressing Submit again: the reset
      form fails on exactly the five required fields and sends nothing. */
  lemma SubmitAfterSuccessSendsNothing(d: Dialog)
    requires Validate(d.form) == map[]
    ensures var d1 := SubmitStep(d);
      var d2 := SubmitStep(d1);
      d2.sent == d1.sent && |d2.sent| == |d.sent| + 1 &&
      d2.errors.Keys == ALL_FIELDS - {Email}
  {
  }

  /** The error map of `handleSubmit`, built one rule at a time as the handler
      does; it is exactly the validation result. */
  method CollectErrors(form: FormData) returns (newErrors: Errors)
    ensures newErrors == Validate(form)
  {
    newErrors := map[];
    if form.firstName == "" { newErrors := newErrors[FirstName := "First name is required"]; }
    if form.lastName == "" { newErrors := newErrors[LastName := "Last name is required"]; }
    if form.username == "" { newErrors := newErrors[Username := "Username is required"]; }
    if form.password == "" { newErrors := newErrors[Password := "Password is required"]; }
    if form.phone == "" { newErrors := newErrors[Phone := "Phone is required"]; }
    if form.email != "" && !IsEmail(form.email) {
      newErrors := newErrors[Email := "Invalid email format"];
    }
    ValidateUnique(form, newErrors);
  }

  /** The dialog component. `open` stands for the parent's prop that
      `setOpen` writes; `sent` records each `dispatch(createClient(payload))`. */
  class CreateClient {
    var open: bool
    var formData: FormData
    var errors: Errors
    ghost var sent: seq<Payload>

    ghost function Model(): Dialog
      reads this
    {
      Dialog(open, formData, errors, sent)
    }

    /** Mounting: the form starts at the initial state with no errors. */
    constructor (open: bool)
      ensures Model() == Dialog(open, INITIAL_STATE, map[], [])
    {
      this.open := open;
      formData := INITIAL_STATE;
      errors := map[];
      sent := [];
    }

    method Change(field: Field, value: string)
      modifies this
      ensures Model() == ChangeStep(old(Model()), field, value)
    {
      formData := formData.With(field, value);
    }

    method Close()
      modifies this
      ensures Model() == CloseStep(old(Model()))
    {
      open := false;
      formData := INITIAL_STATE;
      errors := map[];
    }

    method Submit()
      modifies this
      ensures Model() == SubmitStep(old(Model()))
    {
      var newErrors := CollectErrors(formData);
      if |newErrors| > 0 {
        errors := newErrors;
        return;
      }

      var payload: Payload := AsMap(formData);
      if payload[Email] == "" {
        payload := payload - {Email};
      }
      assert payload == BuildPayload(formData);
      sent := sent + [payload];
      Close();
    }
  }
}
