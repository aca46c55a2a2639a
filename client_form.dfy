/** The fields of the "Add New Client" form, its validation rules and the
    request payload it submits. */
module ClientForm {
  import opened EmailFormat

  datatype Field = FirstName | LastName | Username | Password | Phone | Email

  const ALL_FIELDS: set<Field> := {FirstName, LastName, Username, Password, Phone, Email}

  /** The form's record of six string fields. */
  datatype FormData = FormData(
    firstName: string,
    lastName: string,
    username: string,
    password: string,
    phone: string,
    email: string)
  {
    function Get(f: Field): string
    {
      match f
      case FirstName => firstName
      case LastName => lastName
      case Username => username
      case Password => password
      case Phone => phone
      case Email => email
    }

    /** The spread-copy `{ ...prev, [field]: value }`. */
    function With(f: Field, v: string): (r: FormData)
      ensures r.Get(f) == v
      ensures forall g :: g != f ==> r.Get(g) == Get(g)
    {
      match f
      case FirstName => this.(firstName := v)
      case LastName => this.(lastName := v)
      case Username => this.(username := v)
      case Password => this.(password := v)
      case Phone => this.(phone := v)
      case Email => this.(email := v)
    }
  }

  lemma InAllFields(f: Field)
    ensures f in ALL_FIELDS
  {
  }

  /** Every field empty: the state the form starts in and is reset to. */
  const INITIAL_STATE: FormData := FormData("", "", "", "", "", "")

  /** The JavaScript object the form submits, as a map from key to value. */
  type Payload = map<Field, string>

  /** Error messages keyed by field, shown as each field's helper text. */
  type Errors = map<Field, string>

  const INVALID_EMAIL := "Invalid email format"

  /** The message for a field that failed its rule. */
  function Message(f: Field): string
  {
    match f
    case FirstName => "First name is required"
    case LastName => "Last name is required"
    case Username => "Username is required"
    case Password => "Password is required"
    case Phone => "Phone is required"
    case Email => INVALID_EMAIL
  }

  /** The rule of one field: required fields must be non-empty; the email may be
      empty, and otherwise must pass the regex test. */
  predicate FieldOk(form: FormData, f: Field)
  {
    if f == Email then form.email == "" || IsEmail(form.email)
    else form.Get(f) != ""
  }

  /** All five required fields are filled in. */
  predicate RequiredFilled(form: FormData)
  {
    form.firstName != "" && form.lastName != "" && form.username != "" &&
    form.password != "" && form.phone != ""
  }

  /** The error map a submit computes: one entry per field that breaks its rule. */
  function Validate(form: FormData): (r: Errors)
    ensures (FirstName in r <==> form.firstName == "") &&
            (FirstName in r ==> r[FirstName] == "First name is required")
    ensures (LastName in r <==> form.lastName == "") &&
            (LastName in r ==> r[LastName] == "Last name is required")
    ensures (Username in r <==> form.username == "") &&
            (Username in r ==> r[Username] == "Username is required")
    ensures (Password in r <==> form.password == "") &&
            (Password in r ==> r[Password] == "Password is required")
    ensures (Phone in r <==> form.phone == "") &&
            (Phone in r ==> r[Phone] == "Phone is required")
    ensures (Email in r <==> form.email != "" && !MatchesEmailRegex(form.email)) &&
            (Email in r ==> r[Email] == "Invalid email format")
  {
    map f | f in ALL_FIELDS && !FieldOk(form, f) :: Message(f)
  }

  /** An error map that agrees with every per-field rule is the validation result. */
  lemma ValidateUnique(form: FormData, m: Errors)
    requires FirstName in m <==> form.firstName == ""
    requires LastName in m <==> form.lastName == ""
    requires Username in m <==> form.username == ""
    requires Password in m <==> form.password == ""
    requires Phone in m <==> form.phone == ""
    requires Email in m <==> form.email != "" && !IsEmail(form.email)
    requires forall f :: f in m ==> m[f] == Message(f)
    ensures m == Validate(form)
  {
    var v := Validate(form);
    forall f
      ensures (f in m <==> f in v) && (f in m ==> m[f] == v[f])
    {
      InAllFields(f);
    }
  }

  /** Validation passes exactly when the required fields are filled in and the
      email is empty or well-formed. */
  lemma ValidateEmptyIff(form: FormData)
    ensures Validate(form) == map[] <==>
      RequiredFilled(form) && (form.email == "" || MatchesEmailRegex(form.email))
  {
  }

  /** The empty form fails on exactly the five required fields. */
  lemma ValidateInitialState()
    ensures Validate(INITIAL_STATE).Keys == ALL_FIELDS - {Email}
    ensures forall f :: f in Validate(INITIAL_STATE) ==> Validate(INITIAL_STATE)[f] == Message(f)
  {
  }

  /** The spread-copy `{ ...formData }` as a map with all six keys. */
  function AsMap(form: FormData): (m: Payload)
    ensures forall f :: f in m && m[f] == form.Get(f)
  {
    var full := map f | f in ALL_FIELDS :: form.Get(f);
    assert forall f :: f in full by {
      forall f ensures f in full { InAllFields(f); }
    }
    full
  }

  /** The payload: a copy of the form with the `email` key dropped when it is empty. */
  function BuildPayload(form: FormData): (p: Payload)
    ensures forall f :: f != Email ==> f in p && p[f] == form.Get(f)
    ensures Email in p <==> form.email != ""
    ensures Email in p ==> p[Email] == form.email
    ensures p.Keys <= ALL_FIELDS
  {
    var full := AsMap(form);
    if form.email == "" then full - {Email} else full
  }

  /** Reads a form back from a payload; a missing key reads as the empty string. */
  function FromPayload(p: Payload): (form: FormData)
    ensures forall f :: form.Get(f) == (if f in p then p[f] else "")
  {
    var get := (f: Field) => if f in p then p[f] else "";
    FormData(get(FirstName), get(LastName), get(Username), get(Password), get(Phone), get(Email))
  }

  /** Dropping the empty email loses nothing: the form is recoverable from its payload. */
  lemma PayloadRoundTrip(form: FormData)
    ensures FromPayload(BuildPayload(form)) == form
  {
  }
}
