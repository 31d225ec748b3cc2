/** What the three forms of the client (LoginForm.jsx, DriftForm.jsx, UserList.jsx) share: an
    error object keyed by field name, shown when its entry is truthy, and the way typing into a
    field hides that field's error. */
module Forms {
  import opened Common

  /** `errors[name]`: a missing key reads as `undefined`. */
  function Lookup(errors: map<string, JsValue>, name: string): JsValue {
    if name in errors then errors[name] else Undefined
  }

  /** The error update of every `handleInputChange`: a truthy error for the edited field is
      overwritten with the empty string, which hides it but keeps the key; any other error object
      is left as it is. */
  function ClearFieldError(errors: map<string, JsValue>, name: string): (r: map<string, JsValue>)
    ensures !Truthy(Lookup(r, name))
    ensures r.Keys == errors.Keys
    ensures forall k :: k in errors && k != name ==> r[k] == errors[k]
    ensures !Truthy(Lookup(errors, name)) ==> r == errors
  {
    if Truthy(Lookup(errors, name)) then errors[name := Str("")] else errors
  }

  /** A second edit of the same field changes the errors no further. */
  lemma ClearFieldErrorIdempotent(errors: map<string, JsValue>, name: string)
    ensures ClearFieldError(ClearFieldError(errors, name), name) == ClearFieldError(errors, name)
  {
  }

  /** The account fields the sign-in form and the user form both ask for. */
  const AccountFields: set<string> := {"username", "password", "email", "full_name"}

  /** The four field names are different strings. */
  lemma AccountFieldsDistinct()
    ensures "username" != "password" && "username" != "email" && "username" != "full_name"
    ensures "password" != "email" && "password" != "full_name" && "email" != "full_name"
  {
    assert "username"[0] != "password"[0];
    assert "username"[0] != "full_name"[0];
    assert "password"[0] != "full_name"[0];
  }

  /** `errors.name = message` when a check found a message. */
  function Put(errors: map<string, JsValue>, name: string, message: Option<string>): map<string, JsValue> {
    if message.Some? then errors[name := Str(message.value)] else errors
  }

  /** A field's entry in the error object: its message, or nothing. */
  function Entry(message: Option<string>): JsValue {
    if message.Some? then Str(message.value) else Undefined
  }

  /** The error object built from the four checks' findings, in the order the checks run. */
  function ErrorObject(username: Option<string>, password: Option<string>, email: Option<string>, fullName: Option<string>)
    : map<string, JsValue>
  {
    Put(Put(Put(Put(map[], "username", username), "password", password), "email", email), "full_name", fullName)
  }

  /** The error object holds an entry exactly for each finding, under that field's name, and
      every entry is truthy. */
  lemma ErrorObjectEntries(username: Option<string>, password: Option<string>, email: Option<string>, fullName: Option<string>)
    requires username.Some? ==> username.value != ""
    requires password.Some? ==> password.value != ""
    requires email.Some? ==> email.value != ""
    requires fullName.Some? ==> fullName.value != ""
    ensures ErrorObject(username, password, email, fullName).Keys <= AccountFields
    ensures forall k :: k in ErrorObject(username, password, email, fullName) ==>
      Truthy(ErrorObject(username, password, email, fullName)[k])
    ensures Lookup(ErrorObject(username, password, email, fullName), "username") == Entry(username)
    ensures Lookup(ErrorObject(username, password, email, fullName), "password") == Entry(password)
    ensures Lookup(ErrorObject(username, password, email, fullName), "email") == Entry(email)
    ensures Lookup(ErrorObject(username, password, email, fullName), "full_name") == Entry(fullName)
  {
    AccountFieldsDistinct();
  }

  /** The error object is empty exactly when no check found anything. */
  lemma ErrorObjectEmpty(username: Option<string>, password: Option<string>, email: Option<string>, fullName: Option<string>)
    ensures ErrorObject(username, password, email, fullName) == map[] <==>
      username.None? && password.None? && email.None? && fullName.None?
  {
    var errors := ErrorObject(username, password, email, fullName);
    AccountFieldsDistinct();
    if username.Some? {
      assert "username" in errors;
    } else if password.Some? {
      assert "password" in errors;
    } else if email.Some? {
      assert "email" in errors;
    } else if fullName.Some? {
      assert "full_name" in errors;
    }
  }

  /** Two checks of different fields may run in either order. */
  lemma PutCommutes(errors: map<string, JsValue>, a: string, x: Option<string>, b: string, y: Option<string>)
    requires a != b
    ensures Put(Put(errors, a, x), b, y) == Put(Put(errors, b, y), a, x)
  {
    if x.Some? && y.Some? {
      assert Put(Put(errors, a, x), b, y) == errors[a := Str(x.value)][b := Str(y.value)];
    }
  }
}
