/** frontend/src/components/Auth/LoginForm.jsx: the sign-in form, which in bootstrap mode also
    asks for the first administrator's address and full name. The calls into the authentication
    context (`login`, `bootstrapAdmin`) are returned as values. */
module LoginForm {
  import opened Common
  import opened Forms

  const UsernameRequired := "Username is required"
  const PasswordRequired := "Password is required"
  const PasswordShort := "Password must be at least 6 characters"
  const EmailRequired := "Email is required"
  const EmailInvalid := "Email is invalid"
  const FullNameRequired := "Full name is required"

  /** `/\S+@\S+\.\S+/.test(s)`: somewhere in `s`, a non-space character, an `@`, a non-empty run
      of non-space characters, a `.` and a non-space character. */
  predicate EmailShaped(s: string) {
    exists a, b :: 0 < a && a + 1 < b && b + 1 < |s| && s[a] == '@' && s[b] == '.'
      && !IsSpace(s[a - 1]) && !IsSpace(s[b + 1]) && SpaceFreeBetween(s, a, b)
  }

  /** No white space strictly between positions `lo` and `hi`. */
  predicate SpaceFreeBetween(s: string, lo: int, hi: int)
    requires 0 <= lo <= hi <= |s|
  {
    forall k :: lo < k < hi ==> !IsSpace(s[k])
  }

  predicate NoSpace(s: string) {
    forall k :: 0 <= k < |s| ==> !IsSpace(s[k])
  }

  /** Every address of the form `local@domain.tld` with non-empty, space-free parts passes the
      check. */
  lemma EmailShapedParts(local: string, domain: string, tld: string)
    requires local != [] && domain != [] && tld != []
    requires NoSpace(local) && NoSpace(domain) && NoSpace(tld)
    ensures EmailShaped(local + "@" + domain + "." + tld)
  {
    var s := local + "@" + domain + "." + tld;
    var a, b := |local|, |local| + 1 + |domain|;
    assert s[a] == '@' && s[b] == '.';
    assert s[a - 1] == local[a - 1];
    assert s[b + 1] == tld[0];
    forall k | a < k < b ensures !IsSpace(s[k]) {
      assert s[k] == domain[k - a - 1];
    }
  }

  /** An address without an `@` never passes. */
  lemma EmailNeedsAt(s: string)
    requires forall k :: 0 <= k < |s| ==> s[k] != '@'
    ensures !EmailShaped(s)
  {
  }

  /** The user name's error: required unless it has a non-space character. */
  function UsernameError(username: string): (r: Option<string>)
    ensures r.Some? <==> IsBlank(username)
    ensures r.Some? ==> r.value == UsernameRequired
  {
    if Trim(username) == "" then Some(UsernameRequired) else None
  }

  /** The password's error: required when empty, too short under six characters. */
  function PasswordError(password: string): (r: Option<string>)
    ensures r.Some? <==> |password| < 6
    ensures password == "" ==> r == Some(PasswordRequired)
    ensures 0 < |password| < 6 ==> r == Some(PasswordShort)
  {
    if password == "" then Some(PasswordRequired)
    else if |password| < 6 then Some(PasswordShort)
    else None
  }

  /** The address's error, in bootstrap mode only: required when blank, invalid when it does not
      have the shape of an address. */
  function EmailError(email: string, isBootstrap: bool): (r: Option<string>)
    ensures r.Some? <==> isBootstrap && (IsBlank(email) || !EmailShaped(email))
    ensures r.Some? && IsBlank(email) ==> r.value == EmailRequired
    ensures r.Some? && !IsBlank(email) ==> r.value == EmailInvalid
  {
    if !isBootstrap then None
    else if Trim(email) == "" then Some(EmailRequired)
    else if !EmailShaped(email) then Some(EmailInvalid)
    else None
  }

  /** The full name's error, in bootstrap mode only: required when blank. */
  function FullNameError(fullName: string, isBootstrap: bool): (r: Option<string>)
    ensures r.Some? <==> isBootstrap && IsBlank(fullName)
    ensures r.Some? ==> r.value == FullNameRequired
  {
    if isBootstrap && Trim(fullName) == "" then Some(FullNameRequired) else None
  }

  /** The fields every state of the form holds. */
  predicate HasFields(form: map<string, string>) {
    "username" in form && "password" in form && "email" in form && "full_name" in form
  }

  /** The errors `validateForm` finds in `form`. */
  function LoginErrors(form: map<string, string>, isBootstrap: bool): map<string, JsValue>
    requires HasFields(form)
  {
    ErrorObject(UsernameError(form["username"]), PasswordError(form["password"]),
                EmailError(form["email"], isBootstrap), FullNameError(form["full_name"], isBootstrap))
  }

  /** The error object has an entry for each failed check, holding that check's message, and no
      other entry. */
  lemma LoginErrorsEntries(form: map<string, string>, isBootstrap: bool)
    requires HasFields(form)
    ensures LoginErrors(form, isBootstrap).Keys <= AccountFields
    ensures forall k :: k in LoginErrors(form, isBootstrap) ==> Truthy(LoginErrors(form, isBootstrap)[k])
    ensures Lookup(LoginErrors(form, isBootstrap), "username") == Entry(UsernameError(form["username"]))
    ensures Lookup(LoginErrors(form, isBootstrap), "password") == Entry(PasswordError(form["password"]))
    ensures Lookup(LoginErrors(form, isBootstrap), "email") == Entry(EmailError(form["email"], isBootstrap))
    ensures Lookup(LoginErrors(form, isBootstrap), "full_name") == Entry(FullNameError(form["full_name"], isBootstrap))
  {
    ErrorObjectEntries(UsernameError(form["username"]), PasswordError(form["password"]),
                       EmailError(form["email"], isBootstrap), FullNameError(form["full_name"], isBootstrap));
  }

  /** Outside bootstrap mode only the user name and the password are checked: the form is valid
      exactly when the name has a non-space character and the password six characters. */
  lemma SignInChecksTwoFields(form: map<string, string>)
    requires HasFields(form)
    ensures LoginErrors(form, false) == map[] <==> !IsBlank(form["username"]) && |form["password"]| >= 6
  {
    var errors := LoginErrors(form, false);
    LoginErrorsEntries(form, false);
    if !IsBlank(form["username"]) && |form["password"]| >= 6 {
      assert forall k :: k !in errors;
    } else if IsBlank(form["username"]) {
      assert Lookup(errors, "username") != Undefined;
    } else {
      assert Lookup(errors, "password") != Undefined;
    }
  }

  /** A call `handleSubmit` makes into the authentication context. */
  datatype AuthCall = ClearError | LoginCall(username: string, password: string) | BootstrapCall(form: map<string, string>)

  /** The form's state cells; `isBootstrap` is its property. */
  class LoginFormState {
    const isBootstrap: bool
    var formData: map<string, string>
    var validationErrors: map<string, JsValue>

    predicate Valid()
      reads this
    {
      HasFields(formData)
    }

    /** Every field empty and no errors. */
    constructor(isBootstrap: bool)
      ensures Valid() && this.isBootstrap == isBootstrap
      ensures formData == map["username" := "", "password" := "", "email" := "", "full_name" := ""]
      ensures validationErrors == map[]
    {
      this.isBootstrap := isBootstrap;
      formData := map["username" := "", "password" := "", "email" := "", "full_name" := ""];
      validationErrors := map[];
    }

    /** `validateForm`: collects the errors one check at a time, stores them and reports whether
        there were none. */
    method ValidateForm() returns (valid: bool)
      requires Valid()
      modifies this`validationErrors
      ensures validationErrors == LoginErrors(formData, isBootstrap)
      ensures valid <==> validationErrors == map[]
    {
      var form := formData;
      var username, password := UsernameError(form["username"]), PasswordError(form["password"]);
      var email, fullName := EmailError(form["email"], isBootstrap), FullNameError(form["full_name"], isBootstrap);
      var errors: map<string, JsValue> := map[];
      errors := Put(errors, "username", username);
      errors := Put(errors, "password", password);
      errors := Put(errors, "email", email);
      errors := Put(errors, "full_name", fullName);
      assert errors == ErrorObject(username, password, email, fullName);
      validationErrors := errors;
      valid := errors == map[];
    }

    /** `handleSubmit`: nothing is called unless the form is valid; then the context's error is
        cleared first, and bootstrap mode sends the whole form while sign-in mode sends only the
        user name and password. */
    method HandleSubmit() returns (calls: seq<AuthCall>)
      requires Valid()
      modifies this`validationErrors
      ensures validationErrors == LoginErrors(formData, isBootstrap)
      ensures calls == [] <==> validationErrors != map[]
      ensures calls != [] ==>
        calls == [ClearError, if isBootstrap then BootstrapCall(formData)
                              else LoginCall(formData["username"], formData["password"])]
    {
      var valid := ValidateForm();
      if !valid {
        return [];
      }
      if isBootstrap {
        calls := [ClearError, BootstrapCall(formData)];
      } else {
        calls := [ClearError, LoginCall(formData["username"], formData["password"])];
      }
    }

    /** `handleInputChange`: the named field takes the typed value and its error, if shown, is
        hidden; nothing else changes. */
    method HandleInputChange(name: string, value: string)
      requires Valid()
      modifies this`formData, this`validationErrors
      ensures Valid()
      ensures formData == old(formData)[name := value]
      ensures validationErrors == ClearFieldError(old(validationErrors), name)
    {
      formData := formData[name := value];
      if Truthy(Lookup(validationErrors, name)) {
        validationErrors := validationErrors[name := Str("")];
      }
    }
  }
}
