/** The registration page of src/pages/Register.tsx: form validation with its first-failure
    order, the extra profile data sent to sign-up, the mapping of sign-up error codes to
    messages, single-field form edits, and which form fields each tab's inputs write. */
module Register {
  import opened Common

  /** The form state (`FormData`); the two company fields are absent until typed into. */
  datatype RegisterForm = RegisterForm(
    email: string,
    password: string,
    confirmPassword: string,
    displayName: string,
    companyName: Option<string>,
    contactPerson: Option<string>,
    acceptTerms: bool)

  const InitialForm := RegisterForm("", "", "", "", None, None, false)

  const MissingFields := "Заполните все обязательные поля"
  const ShortPassword := "Пароль должен содержать минимум 6 символов"
  const PasswordMismatch := "Пароли не совпадают"
  const MissingCompany := "Укажите название компании"
  const TermsNotAccepted := "Необходимо согласиться с условиями использования"
  const MinPasswordLength := 6

  // ---------------------------------------------------------------------------
  // Validation

  predicate Filled(form: RegisterForm)
  {
    form.email != "" && form.password != "" && form.displayName != ""
  }

  /** Every check of `validateForm` passes. */
  predicate AllChecksPass(userType: UserType, form: RegisterForm)
  {
    Filled(form) && |form.password| >= MinPasswordLength &&
    form.password == form.confirmPassword &&
    (userType == Company ==> OrEmpty(form.companyName) != "") &&
    form.acceptTerms
  }

  /** `validateForm`: the message of the first failing check, or "" when all pass. */
  function ValidateForm(userType: UserType, form: RegisterForm): (msg: string)
    ensures msg == "" <==> AllChecksPass(userType, form)
    ensures msg == MissingFields <==> !Filled(form)
    ensures msg == ShortPassword <==> Filled(form) && |form.password| < MinPasswordLength
    ensures msg == PasswordMismatch <==>
      Filled(form) && |form.password| >= MinPasswordLength && form.password != form.confirmPassword
    ensures msg == MissingCompany <==>
      Filled(form) && |form.password| >= MinPasswordLength && form.password == form.confirmPassword &&
      userType == Company && OrEmpty(form.companyName) == ""
    ensures msg == TermsNotAccepted <==>
      Filled(form) && |form.password| >= MinPasswordLength && form.password == form.confirmPassword &&
      (userType == Company ==> OrEmpty(form.companyName) != "") && !form.acceptTerms
  {
    if !Filled(form) then MissingFields
    else if |form.password| < MinPasswordLength then ShortPassword
    else if form.password != form.confirmPassword then PasswordMismatch
    else if userType == Company && OrEmpty(form.companyName) == "" then MissingCompany
    else if !form.acceptTerms then TermsNotAccepted
    else ""
  }

  /** A developer's form is judged without its company name. */
  lemma CompanyNameOnlyForCompanies(form: RegisterForm, name: Option<string>)
    ensures ValidateForm(Developer, form) == ValidateForm(Developer, form.(companyName := name))
    ensures ValidateForm(Developer, form) == "" ==>
      (ValidateForm(Company, form) == "" <==> OrEmpty(form.companyName) != "")
  {
  }

  // ---------------------------------------------------------------------------
  // Sign-up data and errors

  datatype CompanyData = CompanyData(companyName: string, contactPerson: string, verified: bool)

  /** `additionalData`: always the display name; for a company also its name, contact person
      and an unverified flag. */
  datatype AdditionalData = AdditionalData(displayName: string, company: Option<CompanyData>)

  function AdditionalDataFor(userType: UserType, form: RegisterForm): (d: AdditionalData)
    ensures d.displayName == form.displayName
    ensures d.company.Some? <==> userType == Company
    ensures d.company.Some? ==> d.company.value.companyName == OrEmpty(form.companyName)
    ensures d.company.Some? ==> !d.company.value.verified
    ensures d.company.Some? && OrEmpty(form.contactPerson) != "" ==> d.company.value.contactPerson == form.contactPerson.value
    ensures d.company.Some? && OrEmpty(form.contactPerson) == "" ==> d.company.value.contactPerson == form.displayName
  {
    AdditionalData(
      form.displayName,
      if userType == Company then
        Some(CompanyData(OrEmpty(form.companyName),
                         if OrEmpty(form.contactPerson) != "" then form.contactPerson.value else form.displayName,
                         false))
      else None)
  }

  const EmailInUse := "Пользователь с таким email уже существует"
  const WeakPassword := "Пароль слишком простой"
  const SignupFailed := "Произошла ошибка при регистрации"

  /** The message shown for a failed sign-up with error code `code`. */
  function ErrorMessage(code: string): (msg: string)
    ensures code == "auth/email-already-in-use" <==> msg == EmailInUse
    ensures code == "auth/weak-password" <==> msg == WeakPassword
    ensures msg in {EmailInUse, WeakPassword, SignupFailed}
  {
    if code == "auth/email-already-in-use" then EmailInUse
    else if code == "auth/weak-password" then WeakPassword
    else SignupFailed
  }

  /** The arguments of the `signup` call. */
  datatype SignupCall = SignupCall(email: string, password: string, userType: UserType, data: AdditionalData)

  // ---------------------------------------------------------------------------
  // Single-field edits

  datatype FormField = EmailField | PasswordField | ConfirmPasswordField | DisplayNameField
                     | CompanyNameField | ContactPersonField | AcceptTermsField

  datatype FieldValue = Text(text: string) | Check(checked: bool)

  predicate Fits(field: FormField, v: FieldValue)
  {
    if field == AcceptTermsField then v.Check? else v.Text?
  }

  /** `formData[field]`, with an absent optional field read as absent. */
  function Get(form: RegisterForm, field: FormField): Option<FieldValue>
  {
    match field
    case EmailField => Some(Text(form.email))
    case PasswordField => Some(Text(form.password))
    case ConfirmPasswordField => Some(Text(form.confirmPassword))
    case DisplayNameField => Some(Text(form.displayName))
    case CompanyNameField => if form.companyName.Some? then Some(Text(form.companyName.value)) else None
    case ContactPersonField => if form.contactPerson.Some? then Some(Text(form.contactPerson.value)) else None
    case AcceptTermsField => Some(Check(form.acceptTerms))
  }

  /** `updateFormData(field, value)`: `{ ...prev, [field]: value }`. */
  function UpdateField(form: RegisterForm, field: FormField, v: FieldValue): (r: RegisterForm)
    requires Fits(field, v)
    ensures Get(r, field) == Some(v)
    ensures forall other :: other != field ==> Get(r, other) == Get(form, other)
  {
    match field
    case EmailField => form.(email := v.text)
    case PasswordField => form.(password := v.text)
    case ConfirmPasswordField => form.(confirmPassword := v.text)
    case DisplayNameField => form.(displayName := v.text)
    case CompanyNameField => form.(companyName := Some(v.text))
    case ContactPersonField => form.(contactPerson := Some(v.text))
    case AcceptTermsField => form.(acceptTerms := v.checked)
  }

  /** A sequence of edits applied in order. */
  function ApplyEdits(form: RegisterForm, edits: seq<(FormField, FieldValue)>): RegisterForm
    requires forall e :: e in edits ==> Fits(e.0, e.1)
    decreases |edits|
  {
    if edits == [] then form
    else
      assert edits[0] in edits;
      ApplyEdits(UpdateField(form, edits[0].0, edits[0].1), edits[1..])
  }

  /** A sequence of edits made through the given inputs only. */
  predicate EditsThrough(inputs: set<FormField>, edits: seq<(FormField, FieldValue)>)
  {
    forall e :: e in edits ==> e.0 in inputs && Fits(e.0, e.1)
  }

  /** Edits that avoid a field leave it as it was. */
  lemma {:induction false} EditsKeepOtherFields(form: RegisterForm, inputs: set<FormField>,
                                                edits: seq<(FormField, FieldValue)>, field: FormField)
    requires EditsThrough(inputs, edits) && field !in inputs
    ensures Get(ApplyEdits(form, edits), field) == Get(form, field)
    decreases |edits|
  {
    if edits != [] {
      assert edits[0] in edits;
      assert forall e :: e in edits[1..] ==> e in edits;
      EditsKeepOtherFields(UpdateField(form, edits[0].0, edits[0].1), inputs, edits[1..], field);
    }
  }

  /** The fields written by the developer tab's inputs as written: the name, the email, the
      input labelled as the password (which writes the confirmation), and the terms box. */
  const DeveloperTabAsWritten := {DisplayNameField, EmailField, ConfirmPasswordField, AcceptTermsField}

  /** The developer tab with a password input that writes the password. */
  const DeveloperTab := {DisplayNameField, EmailField, PasswordField, ConfirmPasswordField, AcceptTermsField}

  /** The fields written by the company tab: the company name, the contact-person input
      (which writes the display name), the email, both passwords and the terms box. */
  const CompanyTab := {CompanyNameField, DisplayNameField, EmailField, PasswordField, ConfirmPasswordField, AcceptTermsField}

  /** On the developer tab as written nothing writes the password, so a developer who never
      visits the company tab always fails validation with the missing-fields message. */
  lemma DeveloperTabCannotRegister(edits: seq<(FormField, FieldValue)>)
    requires EditsThrough(DeveloperTabAsWritten, edits)
    ensures ApplyEdits(InitialForm, edits).password == ""
    ensures ValidateForm(Developer, ApplyEdits(InitialForm, edits)) == MissingFields
  {
    EditsKeepOtherFields(InitialForm, DeveloperTabAsWritten, edits, PasswordField);
  }

  /** A developer filling in the tab with a password input, field by field. */
  const DeveloperEdits: seq<(FormField, FieldValue)> :=
    [(DisplayNameField, Text("Ann")), (EmailField, Text("ann@example.org")),
     (PasswordField, Text("secret")), (ConfirmPasswordField, Text("secret")),
     (AcceptTermsField, Check(true))]

  /** The form those edits leave behind. */
  lemma DeveloperEditsFill()
    ensures forall e :: e in DeveloperEdits ==> Fits(e.0, e.1)
    ensures ApplyEdits(InitialForm, DeveloperEdits) ==
      RegisterForm("ann@example.org", "secret", "secret", "Ann", None, None, true)
  {
    var edits := DeveloperEdits;
    var e1, e2, e3, e4, e5 := edits[0], edits[1], edits[2], edits[3], edits[4];
    var f1 := RegisterForm("", "", "", "Ann", None, None, false);
    var f2 := f1.(email := "ann@example.org");
    var f3 := f2.(password := "secret");
    var f4 := f3.(confirmPassword := "secret");
    ApplyEditsCons(f4, e5, []);
    ApplyEditsCons(f3, e4, [e5]);
    ApplyEditsCons(f2, e3, [e4, e5]);
    ApplyEditsCons(f1, e2, [e3, e4, e5]);
    ApplyEditsCons(InitialForm, e1, [e2, e3, e4, e5]);
    assert [e1] + [e2, e3, e4, e5] == edits;
  }

  /** With a password input on the developer tab, filling the tab in passes validation. */
  lemma DeveloperTabCanRegister()
    ensures EditsThrough(DeveloperTab, DeveloperEdits)
    ensures ValidateForm(Developer, ApplyEdits(InitialForm, DeveloperEdits)) == ""
  {
    DeveloperEditsFill();
    var f := RegisterForm("ann@example.org", "secret", "secret", "Ann", None, None, true);
    assert |f.password| == 6;
    assert AllChecksPass(Developer, f);
  }

  /** Applying edits is one edit, then the rest. */
  lemma ApplyEditsCons(form: RegisterForm, e: (FormField, FieldValue), rest: seq<(FormField, FieldValue)>)
    requires Fits(e.0, e.1) && forall d :: d in rest ==> Fits(d.0, d.1)
    ensures ApplyEdits(form, [e] + rest) == ApplyEdits(UpdateField(form, e.0, e.1), rest)
  {
    assert ([e] + rest)[0] == e && ([e] + rest)[1..] == rest;
  }

  /** Nothing on the company tab writes the contact person, so a company's contact person is
      always its display name. */
  lemma CompanyContactIsDisplayName(edits: seq<(FormField, FieldValue)>)
    requires EditsThrough(CompanyTab, edits)
    ensures AdditionalDataFor(Company, ApplyEdits(InitialForm, edits)).company.value.contactPerson
         == ApplyEdits(InitialForm, edits).displayName
  {
    EditsKeepOtherFields(InitialForm, CompanyTab, edits, ContactPersonField);
  }

  // ---------------------------------------------------------------------------
  // The page

  class RegisterPage {
    var userType: UserType
    var form: RegisterForm
    var error: string
    var loading: bool

    constructor ()
      ensures userType == Developer && form == InitialForm && error == "" && !loading
    {
      userType := Developer;
      form := InitialForm;
      error := "";
      loading := false;
    }

    /** The tab switch. */
    method SetUserType(t: UserType)
      modifies this
      ensures userType == t && form == old(form) && error == old(error) && loading == old(loading)
    {
      userType := t;
    }

    /** `updateFormData` */
    method UpdateFormData(field: FormField, v: FieldValue)
      requires Fits(field, v)
      modifies this
      ensures form == UpdateField(old(form), field, v)
      ensures userType == old(userType) && error == old(error) && loading == old(loading)
    {
      form := UpdateField(form, field, v);
    }

    /** `handleSubmit`. `signupError` is the error code sign-up fails with, `None` when it
        succeeds. Returns the sign-up call made, if any, and the route navigated to. */
    method Submit(signupError: Option<string>) returns (call: Option<SignupCall>, route: Option<string>)
      modifies this
      ensures form == old(form) && userType == old(userType)
      ensures ValidateForm(userType, form) != "" ==>
        call == None && route == None && error == ValidateForm(userType, form) && loading == old(loading)
      ensures ValidateForm(userType, form) == "" ==>
        call == Some(SignupCall(form.email, form.password, userType, AdditionalDataFor(userType, form))) &&
        !loading
      ensures ValidateForm(userType, form) == "" && signupError.None? ==> route == Some("/dashboard") && error == ""
      ensures ValidateForm(userType, form) == "" && signupError.Some? ==>
        route == None && error == ErrorMessage(signupError.value)
    {
      var problem := ValidateForm(userType, form);
      if problem != "" {
        error := problem;
        return None, None;
      }
      error := "";
      loading := true;
      call := Some(SignupCall(form.email, form.password, userType, AdditionalDataFor(userType, form)));
      if signupError.None? {
        route := Some("/dashboard");
      } else {
        error := ErrorMessage(signupError.value);
        route := None;
      }
      loading := false;
    }
  }
}
