/** The field rules the login and registration forms share, and their
    messages. A rule yields `None` for an acceptable value and `Some(message)`
    otherwise, so a field never carries more than one error. */
module Validation {
  import opened Outcomes
  import opened Utils

  const EmailRequired: string := "El email es requerido"
  const EmailInvalid: string := "Ingresa un email válido"
  const PasswordRequired: string := "La contraseña es requerida"
  const PasswordTooShort: string := "La contraseña debe tener al menos 6 caracteres"
  const MinPasswordLength: nat := 6

  /** An empty address is "required"; any other is "invalid" unless it
      passes `validateEmail`. The address is checked as typed, untrimmed. */
  function EmailError(email: string): (e: Option<string>)
    ensures e.None? <==> ValidateEmail(email)
    ensures e == Some(EmailRequired) <==> email == ""
    ensures e.Some? ==> e.value == EmailRequired || e.value == EmailInvalid
  {
    ValidateEmailShape(email);
    if email == "" then Some(EmailRequired)
    else if !ValidateEmail(email) then Some(EmailInvalid)
    else None
  }

  /** An empty password is "required"; one shorter than six characters is
      "too short". */
  function PasswordError(password: string): (e: Option<string>)
    ensures e.None? <==> |password| >= MinPasswordLength
    ensures e == Some(PasswordRequired) <==> password == ""
    ensures e.Some? ==> e.value == PasswordRequired || e.value == PasswordTooShort
  {
    if password == "" then Some(PasswordRequired)
    else if |password| < MinPasswordLength then Some(PasswordTooShort)
    else None
  }

  /** The entry of an error map under a key, if any. */
  function Entry<K>(m: map<K, string>, k: K): (e: Option<string>)
    ensures e.Some? <==> k in m
    ensures e.Some? ==> e.value == m[k]
  {
    if k in m then Some(m[k]) else None
  }

  /** `a || b` on strings: `a` unless it is empty. */
  function OrElse(a: Option<string>, b: string): (r: string)
    ensures a.Some? && a.value != "" ==> r == a.value
    ensures a.None? || a.value == "" ==> r == b
  {
    if a.Some? && a.value != "" then a.value else b
  }
}

/** The login page: the validation block and submit gating of its submit
    handler. */
module LoginPage {
  import opened Outcomes
  import opened Utils
  import opened Validation

  datatype ErrorKey = EmailKey | PasswordKey | GeneralKey

  datatype State = State(
    email: string,
    password: string,
    errors: map<ErrorKey, string>,
    loading: bool)

  datatype Credentials = Credentials(email: string, password: string)

  /** What a submission does: the resulting page state, the call made to
      `login` (if any) and the navigation performed (if any). */
  datatype Submission = Submission(state: State, loginCall: Option<Credentials>, redirect: Option<string>)

  const DefaultLoginFailure: string := "Error al iniciar sesión. Verifica tus credenciales."
  const Dashboard: string := "/dashboard"

  /** The form the page opens with. */
  const Initial: State := State("", "", map[], false)

  /** Submitting the untouched form reports both fields as required and
      does not call `login`. */
  lemma SubmitInitial(login: Outcome<()>)
    ensures HandleSubmit(Initial, login).loginCall.None?
    ensures HandleSubmit(Initial, login).state.errors
         == map[EmailKey := EmailRequired, PasswordKey := PasswordRequired]
  {
    var errs := Validate("", "");
    assert Entry(errs, EmailKey) == Some(EmailRequired);
    assert Entry(errs, PasswordKey) == Some(PasswordRequired);
  }

  /** The error map the validation block builds. */
  function Validate(email: string, password: string): (errs: map<ErrorKey, string>)
    ensures Entry(errs, EmailKey) == EmailError(email)
    ensures Entry(errs, PasswordKey) == PasswordError(password)
    ensures GeneralKey !in errs
  {
    var e := if EmailError(email).Some? then map[EmailKey := EmailError(email).value] else map[];
    if PasswordError(password).Some? then e[PasswordKey := PasswordError(password).value] else e
  }

  /** The form passes validation exactly when the address is well formed and
      the password has at least six characters. */
  lemma AcceptedForms(email: string, password: string)
    ensures Validate(email, password) == map[] <==> ValidateEmail(email) && |password| >= 6
  {
    if !ValidateEmail(email) {
      assert EmailKey in Validate(email, password);
    } else if |password| < 6 {
      assert PasswordKey in Validate(email, password);
    }
  }

  /** The general message after a rejected login: the server's message when
      it sent a non-empty one, otherwise the fixed default. */
  function FailureMessage(f: Fault): (m: string)
    ensures f.responseMessage.Some? && f.responseMessage.value != "" ==> m == f.responseMessage.value
    ensures f.responseMessage.None? || f.responseMessage.value == "" ==> m == DefaultLoginFailure
  {
    OrElse(f.responseMessage, DefaultLoginFailure)
  }

  /** `handleSubmit`, given how the `login` call settles (used only when the
      call is made). */
  function HandleSubmit(st: State, login: Outcome<()>): (s: Submission)
    ensures s.loginCall.Some? <==> Validate(st.email, st.password) == map[]
    ensures s.loginCall.Some? ==> s.loginCall.value == Credentials(st.email, st.password)
    ensures s.loginCall.None? ==> s.state.errors == Validate(st.email, st.password) && s.redirect.None?
    ensures s.loginCall.Some? && login.Ok? ==> s.redirect == Some(Dashboard) && s.state.errors == map[]
    ensures s.loginCall.Some? && login.Err? ==>
      s.redirect.None? && s.state.errors == map[GeneralKey := FailureMessage(login.fault)]
    ensures s.state.email == st.email && s.state.password == st.password
    ensures s.loginCall.Some? ==> !s.state.loading
    ensures s.loginCall.None? ==> s.state.loading == st.loading
  {
    var errs := Validate(st.email, st.password);
    if errs != map[] then
      Submission(st.(errors := errs), None, None)
    else
      var call := Some(Credentials(st.email, st.password));
      match login
      case Ok(_) => Submission(st.(errors := map[], loading := false), call, Some(Dashboard))
      case Err(f) => Submission(st.(errors := map[GeneralKey := FailureMessage(f)], loading := false), call, None)
  }

  /** The address is not trimmed: padding a well-formed address with a space
      makes the submission fail validation, and `login` is not called. */
  lemma PaddedEmailRejected(st: State, login: Outcome<()>)
    requires ValidateEmail(st.email)
    ensures var padded := st.(email := " " + st.email);
      && HandleSubmit(padded, login).loginCall.None?
      && HandleSubmit(padded, login).state.errors[EmailKey] == EmailInvalid
  {
    var e := " " + st.email;
    ValidateEmailShape(e);
    assert e[0] == ' ';
  }
}

/** The registration page: field validation and payload construction in its
    submit handler, and per-field error clearing in its change handler. */
module RegisterPage {
  import opened Outcomes
  import opened Text
  import opened Utils
  import opened Validation
  import opened Types

  datatype Field = FullName | Email | Password | ConfirmPassword | ProfessionalTitle | Company

  /** Error entries are keyed by field name, plus `general`. */
  datatype ErrorKey = On(field: Field) | General

  datatype Form = Form(
    fullName: string,
    email: string,
    password: string,
    confirmPassword: string,
    professionalTitle: string,
    company: string)

  datatype State = State(form: Form, errors: map<ErrorKey, string>, loading: bool)

  datatype Submission = Submission(state: State, registerCall: Option<RegisterData>, redirect: Option<string>)

  const NameRequired: string := "El nombre es requerido"
  const NameTooShort: string := "El nombre debe tener al menos 2 caracteres"
  const ConfirmRequired: string := "Confirma tu contraseña"
  const PasswordsDiffer: string := "Las contraseñas no coinciden"
  const RegisterFailure: string := "Error al crear la cuenta. Verifica tus datos e intenta nuevamente."
  const Dashboard: string := "/dashboard"

  /** The form the page opens with. */
  const Initial: State := State(Form("", "", "", "", "", ""), map[], false)

  function Get(form: Form, f: Field): string {
    match f
    case FullName => form.fullName
    case Email => form.email
    case Password => form.password
    case ConfirmPassword => form.confirmPassword
    case ProfessionalTitle => form.professionalTitle
    case Company => form.company
  }

  function Set(form: Form, f: Field, v: string): (r: Form)
    ensures Get(r, f) == v
    ensures forall g :: g != f ==> Get(r, g) == Get(form, g)
  {
    match f
    case FullName => form.(fullName := v)
    case Email => form.(email := v)
    case Password => form.(password := v)
    case ConfirmPassword => form.(confirmPassword := v)
    case ProfessionalTitle => form.(professionalTitle := v)
    case Company => form.(company := v)
  }

  /** An entry that shows: present and non-empty. */
  predicate Shown(errors: map<ErrorKey, string>, k: ErrorKey) {
    k in errors && errors[k] != ""
  }

  /** `handleChange`: sets the field and, if its error shows, blanks that
      error; every other field and every other error entry is kept. */
  function HandleChange(st: State, f: Field, v: string): (r: State)
    ensures Get(r.form, f) == v
    ensures forall g :: g != f ==> Get(r.form, g) == Get(st.form, g)
    ensures !Shown(r.errors, On(f))
    ensures r.errors.Keys == st.errors.Keys
    ensures forall k :: k in st.errors && k != On(f) ==> r.errors[k] == st.errors[k]
    ensures r.loading == st.loading
  {
    var errors := if Shown(st.errors, On(f)) then st.errors[On(f) := ""] else st.errors;
    st.(form := Set(st.form, f, v), errors := errors)
  }

  /** Typing a field's old value back restores the form, but not the
      errors: a blanked error stays blank, every other entry is kept. */
  lemma ChangeBack(st: State, f: Field, v: string)
    ensures var back := HandleChange(HandleChange(st, f, v), f, Get(st.form, f));
      && back.form == st.form
      && back.errors.Keys == st.errors.Keys
      && !Shown(back.errors, On(f))
      && forall k :: k in st.errors && k != On(f) ==> back.errors[k] == st.errors[k]
  {
    var back := HandleChange(HandleChange(st, f, v), f, Get(st.form, f));
    assert Get(back.form, FullName) == Get(st.form, FullName);
    assert Get(back.form, Email) == Get(st.form, Email);
    assert Get(back.form, Password) == Get(st.form, Password);
    assert Get(back.form, ConfirmPassword) == Get(st.form, ConfirmPassword);
    assert Get(back.form, ProfessionalTitle) == Get(st.form, ProfessionalTitle);
    assert Get(back.form, Company) == Get(st.form, Company);
  }

  function NameError(fullName: string): (e: Option<string>)
    ensures e == Some(NameRequired) <==> Trim(fullName) == ""
    ensures e == Some(NameTooShort) <==> Trim(fullName) != "" && |Trim(fullName)| < 2
    ensures e.None? <==> |Trim(fullName)| >= 2
  {
    if Trim(fullName) == "" then Some(NameRequired)
    else if |Trim(fullName)| < 2 then Some(NameTooShort)
    else None
  }

  function ConfirmError(password: string, confirm: string): (e: Option<string>)
    ensures e == Some(ConfirmRequired) <==> confirm == ""
    ensures e == Some(PasswordsDiffer) <==> confirm != "" && confirm != password
    ensures e.None? <==> confirm != "" && confirm == password
  {
    if confirm == "" then Some(ConfirmRequired)
    else if password != confirm then Some(PasswordsDiffer)
    else None
  }

  /** `m` with the entry `k := e` added when there is an error. */
  function WithError(m: map<ErrorKey, string>, k: ErrorKey, e: Option<string>): (r: map<ErrorKey, string>)
    ensures k in r <==> k in m || e.Some?
    ensures e.Some? ==> r[k] == e.value
    ensures forall j :: j != k ==> (j in r <==> j in m)
    ensures forall j :: j != k && j in m ==> r[j] == m[j]
  {
    if e.Some? then m[k := e.value] else m
  }

  /** The error map holding each given error under its field. */
  function ErrorMap(name: Option<string>, email: Option<string>, password: Option<string>,
                    confirm: Option<string>): (errs: map<ErrorKey, string>)
    ensures Entry(errs, On(FullName)) == name && Entry(errs, On(Email)) == email
    ensures Entry(errs, On(Password)) == password && Entry(errs, On(ConfirmPassword)) == confirm
    ensures errs.Keys <= {On(FullName), On(Email), On(Password), On(ConfirmPassword)}
  {
    var m1 := WithError(map[], On(FullName), name);
    var m2 := WithError(m1, On(Email), email);
    var m3 := WithError(m2, On(Password), password);
    WithError(m3, On(ConfirmPassword), confirm)
  }

  /** The error map the validation block builds: one entry for each of the
      four validated fields whose rule fails, holding that rule's message,
      and nothing else. */
  function Validate(form: Form): (errs: map<ErrorKey, string>)
    ensures Entry(errs, On(FullName)) == NameError(form.fullName)
    ensures Entry(errs, On(Email)) == EmailError(form.email)
    ensures Entry(errs, On(Password)) == PasswordError(form.password)
    ensures Entry(errs, On(ConfirmPassword)) == ConfirmError(form.password, form.confirmPassword)
    ensures Entry(errs, On(ProfessionalTitle)).None? && Entry(errs, On(Company)).None?
    ensures Entry(errs, General).None?
  {
    ErrorMap(NameError(form.fullName), EmailError(form.email), PasswordError(form.password),
             ConfirmError(form.password, form.confirmPassword))
  }

  /** What an acceptable form is: a trimmed name of two characters, a
      well-formed address, a six-character password and a confirmation that
      repeats it. */
  predicate Acceptable(form: Form) {
    && |Trim(form.fullName)| >= 2
    && ValidateEmail(form.email)
    && |form.password| >= MinPasswordLength
    && form.confirmPassword == form.password
  }

  /** Validation passes exactly on the acceptable forms. */
  lemma AcceptedForms(form: Form)
    ensures Validate(form) == map[] <==> Acceptable(form)
  {
    var errs := Validate(form);
    if errs == map[] {
      assert Entry(errs, On(FullName)).None?;
      assert Entry(errs, On(Email)).None?;
      assert Entry(errs, On(Password)).None?;
      assert Entry(errs, On(ConfirmPassword)).None?;
    } else {
      var k :| k in errs;
      assert Entry(errs, k).Some?;
    }
  }

  /** `x.trim() || undefined`. */
  function TrimmedOrUndefined(s: string): (r: Option<string>)
    ensures r.None? <==> Trim(s) == ""
    ensures r.Some? ==> r.value == Trim(s) && r.value != ""
  {
    if Trim(s) == "" then None else Some(Trim(s))
  }

  /** The payload passed to `register`. */
  function Payload(form: Form): (d: RegisterData)
    ensures d.fullName == Trim(form.fullName)
    ensures d.email == form.email && d.password == form.password
    ensures d.professionalTitle == TrimmedOrUndefined(form.professionalTitle)
    ensures d.company == TrimmedOrUndefined(form.company)
  {
    RegisterData(Trim(form.fullName), form.email, form.password,
                 TrimmedOrUndefined(form.professionalTitle), TrimmedOrUndefined(form.company))
  }

  /** The general message after a rejected registration: the fixed text,
      followed by the error's own message when an `Error` was thrown. The
      thrown message can be read back after the fixed text and `": "`. */
  function FailureMessage(f: Fault): (m: string)
    ensures |m| >= |RegisterFailure| && m[..|RegisterFailure|] == RegisterFailure
    ensures m == RegisterFailure <==> f.errorMessage.None?
    ensures f.errorMessage.Some? ==>
      |m| >= |RegisterFailure| + 2 && m[|RegisterFailure| + 2..] == f.errorMessage.value
  {
    RegisterFailure + (if f.errorMessage.Some? then ": " + f.errorMessage.value else "")
  }

  /** `handleSubmit`, given how the `register` call settles (used only when
      the call is made). */
  function HandleSubmit(st: State, register: Outcome<()>): (s: Submission)
    ensures s.registerCall.Some? <==> Acceptable(st.form)
    ensures s.registerCall.Some? ==> s.registerCall.value == Payload(st.form)
    ensures s.registerCall.None? ==> s.state.errors == Validate(st.form) && s.redirect.None?
    ensures s.registerCall.Some? && register.Ok? ==> s.redirect == Some(Dashboard) && s.state.errors == map[]
    ensures s.registerCall.Some? && register.Err? ==>
      s.redirect.None? && s.state.errors == map[General := FailureMessage(register.fault)]
    ensures s.state.form == st.form
    ensures s.registerCall.Some? ==> !s.state.loading
    ensures s.registerCall.None? ==> s.state.loading == st.loading
  {
    var errs := Validate(st.form);
    AcceptedForms(st.form);
    if errs != map[] then
      Submission(st.(errors := errs), None, None)
    else
      var call := Some(Payload(st.form));
      match register
      case Ok(_) => Submission(st.(errors := map[], loading := false), call, Some(Dashboard))
      case Err(f) => Submission(st.(errors := map[General := FailureMessage(f)], loading := false), call, None)
  }

  /** An accepted form yields a payload whose name has at least two
      characters and whose optional fields, when present, are already
      trimmed. */
  lemma PayloadOfAcceptedForm(form: Form)
    requires Acceptable(form)
    ensures |Payload(form).fullName| >= 2
    ensures ValidateEmail(Payload(form).email) && |Payload(form).password| >= 6
    ensures Payload(form).professionalTitle.Some? ==> Trim(Payload(form).professionalTitle.value) == Payload(form).professionalTitle.value
  {
    AcceptedForms(form);
    if Payload(form).professionalTitle.Some? {
      TrimIdempotent(form.professionalTitle);
    }
  }

  /** Submitting the untouched form marks the name, address, password and
      confirmation as required and does not call `register`. */
  lemma SubmitInitial(register: Outcome<()>)
    ensures HandleSubmit(Initial, register).registerCall.None?
    ensures HandleSubmit(Initial, register).state.errors
         == map[On(FullName) := NameRequired, On(Email) := EmailRequired,
                On(Password) := PasswordRequired, On(ConfirmPassword) := ConfirmRequired]
  {
    assert !Acceptable(Initial.form) by { assert Trim("") == ""; }
    BlankFormFailsEveryRule(Initial.form);
    ErrorMapOfFailures(NameRequired, EmailRequired, PasswordRequired, ConfirmRequired);
  }

  /** Each of the four rules fails on a form whose four validated fields
      are empty, with "required". */
  lemma BlankFormFailsEveryRule(form: Form)
    requires form.fullName == "" && form.email == "" && form.password == "" && form.confirmPassword == ""
    ensures Validate(form)
         == ErrorMap(Some(NameRequired), Some(EmailRequired), Some(PasswordRequired), Some(ConfirmRequired))
  {
    assert Trim(form.fullName) == "";
  }

  /** When all four rules fail, the error map holds exactly their messages. */
  lemma ErrorMapOfFailures(name: string, email: string, password: string, confirm: string)
    ensures ErrorMap(Some(name), Some(email), Some(password), Some(confirm))
         == map[On(FullName) := name, On(Email) := email,
                On(Password) := password, On(ConfirmPassword) := confirm]
  {
    var m1 := WithError(map[], On(FullName), Some(name));
    assert m1 == map[On(FullName) := name];
    var m2 := WithError(m1, On(Email), Some(email));
    assert m2 == m1[On(Email) := email];
    var m3 := WithError(m2, On(Password), Some(password));
    assert m3 == m2[On(Password) := password];
    assert WithError(m3, On(ConfirmPassword), Some(confirm)) == m3[On(ConfirmPassword) := confirm];
  }
}
